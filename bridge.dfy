/**
 * The bridge client (bridge.go, lines 13-63): a bridge's address and username, the debug switch,
 * and how a resource path becomes the request sent to the bridge's REST API. The HTTP exchange
 * itself is a Transport: a function from the request to what the transport and the JSON decoder
 * deliver for it.
 */
module HueBridge {
  import opened Wrappers
  import Json

  /** Why a call delivers no result. */
  datatype Error =
    | Transport(detail: string)   // connection, request construction or body read failure
    | Decode(detail: string)      // the body is not the JSON the call decodes into
    | NotFound(message: string)   // a lookup matched no light
    | Panicked                    // a failed type assertion or a call through a nil bridge: the Go call panics

  datatype Verb = Get | Post | Put

  /** One HTTP request: the verb, the full URI, and the JSON body if there is one. */
  datatype Request = Request(verb: Verb, uri: string, body: Option<Json.Object>)

  /** The network and the decoder behind one request, delivering a decoded T or an error. */
  type Transport<T> = Request -> Result<T, Error>

  class Bridge {
    var ipAddr: string
    var username: string
    var debug: bool

    /** NewBridge: a bridge at a known address with a known username, debug off. */
    constructor (ipAddr: string, username: string)
      ensures this.ipAddr == ipAddr && this.username == username && !debug
    {
      this.ipAddr := ipAddr;
      this.username := username;
      debug := false;
    }

    /** Switches debug logging on and hands back the same bridge; no request changes. */
    method Debug() returns (b: Bridge)
      modifies this`debug
      ensures b == this && debug
      ensures ipAddr == old(ipAddr) && username == old(username)
      ensures forall path :: ToURI(path) == old(ToURI(path))
    {
      debug := true;
      b := this;
    }

    /** The part of every URI in front of the resource path. */
    function Root(): string
      reads this
    {
      "http://" + ipAddr + "/api/" + username
    }

    /**
     * toURI: the resource path appended to "http://<address>/api/<username>". The URI splits
     * back into the scheme, the address, the username and the path.
     */
    function ToURI(path: string): (uri: string)
      reads this
      ensures |uri| == 12 + |ipAddr| + |username| + |path|
      ensures uri[..7] == "http://" && uri[7..7 + |ipAddr|] == ipAddr
      ensures uri[7 + |ipAddr|..12 + |ipAddr|] == "/api/"
      ensures uri[12 + |ipAddr|..12 + |ipAddr| + |username|] == username
      ensures uri[12 + |ipAddr| + |username|..] == path
    {
      Root() + path
    }

    /** What get, post and put send: the verb, the URI of the path, the body. */
    function RequestTo(verb: Verb, path: string, body: Option<Json.Object>): Request
      reads this
    {
      Request(verb, ToURI(path), body)
    }
  }

  /** On one bridge, different paths give different URIs. */
  lemma ToURIInjective(b: Bridge, p: string, q: string)
    requires b.ToURI(p) == b.ToURI(q)
    ensures p == q
  {
    var n := 12 + |b.ipAddr| + |b.username|;
    assert p == b.ToURI(p)[n..];
  }

  /** A request sent through a bridge determines the verb, the resource path and the body it was made from. */
  lemma RequestToInjective(b: Bridge, v: Verb, p: string, x: Option<Json.Object>, w: Verb, q: string, y: Option<Json.Object>)
    requires b.RequestTo(v, p, x) == b.RequestTo(w, q, y)
    ensures v == w && p == q && x == y
  {
    ToURIInjective(b, p, q);
  }
}
