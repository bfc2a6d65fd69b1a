/**
 * A light and the requests that change it (light.go). The state update is a record of strings
 * in which "" means "leave unchanged"; SetState turns it into a sparse parameter map, parsing
 * the boolean and numeric fields and keeping the parser's fallback value when parsing fails.
 */
module HueLight {
  import opened Wrappers
  import opened Json
  import Strconv
  import opened HueBridge

  /** A light: the bridge's identifier for it, its name, and the bridge it is reached through (null when none was attached). */
  datatype Light = Light(id: string, name: string, bridge: Bridge?)

  /** SetLightState: every field but xy is a string, "" for unset; xy is unset when nil (None). */
  datatype SetLightState = SetLightState(
    on: string,
    bri: string,
    hue: string,
    sat: string,
    xy: Option<seq<real>>,
    ct: string,
    alert: string,
    effect: string,
    transitionTime: string)

  /** The zero SetLightState: every field unset. */
  const Unset := SetLightState("", "", "", "", None, "", "", "", "")

  /** The keys a light-state payload can carry. */
  const ParamKeys: set<string> := {"on", "bri", "hue", "sat", "xy", "ct", "alert", "effect", "transitiontime"}

  /** The value a set field is sent as: booleans and integers parsed, failures giving false and the fallback of Atoi. */
  function Param(s: SetLightState, key: string): Option<Value> {
    match key
    case "on" => if s.on == "" then None else Some(Bool(Strconv.ParseBool(s.on).GetOr(false)))
    case "bri" => if s.bri == "" then None else Some(Int(Strconv.Atoi(s.bri)))
    case "hue" => if s.hue == "" then None else Some(Int(Strconv.Atoi(s.hue)))
    case "sat" => if s.sat == "" then None else Some(Int(Strconv.Atoi(s.sat)))
    case "xy" => if s.xy.None? then None else Some(Floats(s.xy.value))
    case "ct" => if s.ct == "" then None else Some(Int(Strconv.Atoi(s.ct)))
    case "alert" => if s.alert == "" then None else Some(Str(s.alert))
    case "effect" => if s.effect == "" then None else Some(Str(s.effect))
    case "transitiontime" => if s.transitionTime == "" then None else Some(Int(Strconv.Atoi(s.transitionTime)))
    case _ => None
  }

  /**
   * What SetState promises of its parameter map: one entry per set field and none for an
   * unset one; alert, effect and xy verbatim (an empty but non-nil xy included); the numeric
   * fields as Atoi reads them; on as true exactly when ParseBool reads true, so an unparsable
   * `on` is sent as false.
   */
  predicate SparseParams(s: SetLightState, params: Object) {
    && params.Keys <= ParamKeys
    && ("on" in params <==> s.on != "") && ("bri" in params <==> s.bri != "")
    && ("hue" in params <==> s.hue != "") && ("sat" in params <==> s.sat != "")
    && ("xy" in params <==> s.xy.Some?) && ("ct" in params <==> s.ct != "")
    && ("alert" in params <==> s.alert != "") && ("effect" in params <==> s.effect != "")
    && ("transitiontime" in params <==> s.transitionTime != "")
    && ("on" in params ==> params["on"] == Bool(Strconv.ParseBool(s.on) == Some(true)))
    && ("bri" in params ==> params["bri"] == Int(Strconv.Atoi(s.bri)))
    && ("hue" in params ==> params["hue"] == Int(Strconv.Atoi(s.hue)))
    && ("sat" in params ==> params["sat"] == Int(Strconv.Atoi(s.sat)))
    && ("xy" in params ==> params["xy"] == Floats(s.xy.value))
    && ("ct" in params ==> params["ct"] == Int(Strconv.Atoi(s.ct)))
    && ("alert" in params ==> params["alert"] == Str(s.alert))
    && ("effect" in params ==> params["effect"] == Str(s.effect))
    && ("transitiontime" in params ==> params["transitiontime"] == Int(Strconv.Atoi(s.transitionTime)))
  }

  /** The parameter map of a state update, key by key from the table Param. */
  function LightParams(s: SetLightState): (params: Object)
    ensures SparseParams(s, params)
  {
    map k | k in ParamKeys && Param(s, k).Some? :: Param(s, k).value
  }

  /**
   * SetState: PUT the parameter map to the light's state resource; the reply comes back as
   * delivered. A light without a bridge cannot be reached: the Go call dereferences nil and panics.
   */
  method SetState(l: Light, state: SetLightState, send: Transport<seq<Value>>) returns (r: Result<seq<Value>, Error>)
    ensures l.bridge == null ==> r == Failure(Panicked)
    ensures l.bridge != null ==> r == send(l.bridge.RequestTo(Put, "/lights/" + l.id + "/state", Some(LightParams(state))))
  {
    var params := LightParams(state);
    if l.bridge == null {
      return Failure(Panicked);
    }
    r := send(l.bridge.RequestTo(Put, "/lights/" + l.id + "/state", Some(params)));
  }

  /** On: switches the light on and stops any effect; the payload is exactly {on: true, effect: "none"}. */
  method On(l: Light, send: Transport<seq<Value>>) returns (r: Result<seq<Value>, Error>)
    ensures l.bridge == null ==> r == Failure(Panicked)
    ensures l.bridge != null ==> r == send(l.bridge.RequestTo(Put, "/lights/" + l.id + "/state",
                                                              Some(map["on" := Bool(true), "effect" := Str("none")])))
  {
    var state := Unset.(on := "true", effect := "none");
    ParamsAre(state, map["on" := Bool(true), "effect" := Str("none")]);
    r := SetState(l, state, send);
  }

  /** Off: the payload is exactly {on: false}. */
  method Off(l: Light, send: Transport<seq<Value>>) returns (r: Result<seq<Value>, Error>)
    ensures l.bridge == null ==> r == Failure(Panicked)
    ensures l.bridge != null ==> r == send(l.bridge.RequestTo(Put, "/lights/" + l.id + "/state", Some(map["on" := Bool(false)])))
  {
    var state := Unset.(on := "false");
    ParamsAre(state, map["on" := Bool(false)]);
    r := SetState(l, state, send);
  }

  /** ColorLoop: the payload is exactly {on: true, effect: "colorloop"}. */
  method ColorLoop(l: Light, send: Transport<seq<Value>>) returns (r: Result<seq<Value>, Error>)
    ensures l.bridge == null ==> r == Failure(Panicked)
    ensures l.bridge != null ==> r == send(l.bridge.RequestTo(Put, "/lights/" + l.id + "/state",
                                                              Some(map["on" := Bool(true), "effect" := Str("colorloop")])))
  {
    var state := Unset.(on := "true", effect := "colorloop");
    ParamsAre(state, map["on" := Bool(true), "effect" := Str("colorloop")]);
    r := SetState(l, state, send);
  }

  /** SetName: PUT exactly {name: newName} to the light's own resource. */
  method SetName(l: Light, newName: string, send: Transport<seq<Value>>) returns (r: Result<seq<Value>, Error>)
    ensures l.bridge == null ==> r == Failure(Panicked)
    ensures l.bridge != null ==> r == send(l.bridge.RequestTo(Put, "/lights/" + l.id, Some(map["name" := Str(newName)])))
  {
    var params := map["name" := Str(newName)];
    if l.bridge == null {
      return Failure(Panicked);
    }
    r := send(l.bridge.RequestTo(Put, "/lights/" + l.id, Some(params)));
  }

  /** Two parameter maps agree when they have the same keys and the same value under each. */
  lemma ParamsAre(s: SetLightState, expected: Object)
    requires expected.Keys <= ParamKeys
    requires forall k :: k in ParamKeys ==> (k in expected <==> Param(s, k).Some?)
    requires forall k :: k in expected ==> Param(s, k) == Some(expected[k])
    ensures LightParams(s) == expected
  {
    var params := LightParams(s);
    assert params.Keys == expected.Keys;
  }

  /**
   * Whatever is unparsable, a set numeric field still becomes a key, holding Atoi's fallback:
   * a brightness with a syntax error ("abc", "1.5", "12a", "-x") is sent as 0.
   */
  lemma UnparsableBrightnessSentAsZero(sign: string, ds: string, c: char, rest: string)
    requires Strconv.IsSign(sign) && Strconv.AllDigits(ds) && Strconv.DecimalValue(ds) <= Strconv.MaxUint
    requires !Strconv.IsDigit(c) && (sign == "" && ds == [] ==> c != '+' && c != '-')
    ensures LightParams(Unset.(bri := sign + ds + [c] + rest)) == map["bri" := Int(0)]
  {
    var t := sign + ds + [c] + rest;
    Strconv.AtoiSyntaxError(sign, ds, c, rest);
    assert t != "" by {
      assert |t| > 0;
    }
    ParamsAre(Unset.(bri := t), map["bri" := Int(0)]);
  }

  /**
   * Every `on` that ParseBool rejects ("yes", "on", "tRUE", ...) is still sent, as false, which
   * switches the light off.
   */
  lemma UnparsableOnSentAsOff(s: SetLightState, t: string)
    requires t != "" && Strconv.ParseBool(t).None?
    ensures "on" in LightParams(s.(on := t)) && LightParams(s.(on := t))["on"] == Bool(false)
  {
  }

  /**
   * An empty, non-nil xy is not "unset": whatever else the update sets, it is sent as an empty
   * coordinate list.
   */
  lemma EmptyXySent(s: SetLightState)
    ensures "xy" in LightParams(s.(xy := Some([]))) && LightParams(s.(xy := Some([])))["xy"] == Floats([])
  {
  }

  /** The payload of the all-unset update is empty. */
  lemma UnsetSendsNothing()
    ensures LightParams(Unset) == map[]
  {
    ParamsAre(Unset, map[]);
  }
}
