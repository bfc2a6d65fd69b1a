/**
 * The state update of a group of lights and how it is serialised (group.go). Every field of
 * GroupState is tagged `omitempty`, so the encoder leaves out each field that holds its zero
 * value: false, 0, "" or an empty coordinate list. The body of a request is therefore the set of
 * non-zero fields, and a zero can never be sent.
 */
module HueGroup {
  import opened Wrappers
  import opened Json
  import opened HueBridge

  newtype uint8 = x: int | 0 <= x < 0x100
  newtype uint16 = x: int | 0 <= x < 0x1_0000

  /**
   * GroupState (group.go, lines 9-70). A nil and an empty coordinate list encode alike, so xy
   * is a plain sequence.
   */
  datatype GroupState = GroupState(
    on: bool,
    bri: uint8,
    hue: uint16,
    sat: uint8,
    xy: seq<real>,
    ct: uint16,
    alert: string,
    effect: string,
    transitionTime: uint16,
    scene: string)

  /** The zero GroupState: nothing to change. */
  const NoChange := GroupState(false, 0, 0, 0, [], 0, "", "", 0, "")

  /** The JSON names of the fields, as their tags give them. */
  const GroupKeys: set<string> :=
    {"on", "bri", "hue", "sat", "xy", "ct", "alert", "effect", "transitiontime", "scene"}

  /** The JSON value of the field with the given name. */
  function FieldValue(s: GroupState, key: string): Value {
    match key
    case "on" => Bool(s.on)
    case "bri" => Int(s.bri as int)
    case "hue" => Int(s.hue as int)
    case "sat" => Int(s.sat as int)
    case "xy" => Floats(s.xy)
    case "ct" => Int(s.ct as int)
    case "alert" => Str(s.alert)
    case "effect" => Str(s.effect)
    case "transitiontime" => Int(s.transitionTime as int)
    case "scene" => Str(s.scene)
    case _ => Null
  }

  /**
   * What `omitempty` promises of an encoded GroupState: a key for every non-zero field and for
   * no other, holding the field's value unchanged.
   */
  predicate OmitsZeros(s: GroupState, body: Object) {
    && body.Keys <= GroupKeys
    && ("on" in body <==> s.on) && ("bri" in body <==> s.bri != 0)
    && ("hue" in body <==> s.hue != 0) && ("sat" in body <==> s.sat != 0)
    && ("xy" in body <==> s.xy != []) && ("ct" in body <==> s.ct != 0)
    && ("alert" in body <==> s.alert != "") && ("effect" in body <==> s.effect != "")
    && ("transitiontime" in body <==> s.transitionTime != 0) && ("scene" in body <==> s.scene != "")
    && ("on" in body ==> body["on"] == Bool(true))
    && ("bri" in body ==> body["bri"] == Int(s.bri as int))
    && ("hue" in body ==> body["hue"] == Int(s.hue as int))
    && ("sat" in body ==> body["sat"] == Int(s.sat as int))
    && ("xy" in body ==> body["xy"] == Floats(s.xy))
    && ("ct" in body ==> body["ct"] == Int(s.ct as int))
    && ("alert" in body ==> body["alert"] == Str(s.alert))
    && ("effect" in body ==> body["effect"] == Str(s.effect))
    && ("transitiontime" in body ==> body["transitiontime"] == Int(s.transitionTime as int))
    && ("scene" in body ==> body["scene"] == Str(s.scene))
  }

  /** json.Marshal of a GroupState: every tagged field whose value is not empty. */
  function Marshal(s: GroupState): (body: Object)
    ensures OmitsZeros(s, body)
  {
    map k | k in GroupKeys && !IsEmptyValue(FieldValue(s, k)) :: FieldValue(s, k)
  }

  /** The unsigned value under a key, zero when the key is absent; None when it is not a number in range. */
  function DecodeUint(body: Object, key: string, bound: int): Option<int> {
    if key !in body then Some(0)
    else match body[key]
      case Int(i) => if 0 <= i < bound then Some(i) else None
      case _ => None
  }

  /** The string under a key, "" when absent; None when it is not a string. */
  function DecodeString(body: Object, key: string): Option<string> {
    if key !in body then Some("")
    else match body[key]
      case Str(v) => Some(v)
      case _ => None
  }

  /**
   * Decoding a body into a GroupState, each absent key leaving its field at zero, as Go's decoder
   * does; None for a value of the wrong type or out of the field's range.
   */
  function Unmarshal(body: Object): Option<GroupState> {
    var on :- if "on" !in body then Some(false) else if body["on"].Bool? then Some(body["on"].b) else None;
    var bri :- DecodeUint(body, "bri", 0x100);
    var hue :- DecodeUint(body, "hue", 0x1_0000);
    var sat :- DecodeUint(body, "sat", 0x100);
    var xy :- if "xy" !in body then Some([]) else if body["xy"].Floats? then Some(body["xy"].xs) else None;
    var ct :- DecodeUint(body, "ct", 0x1_0000);
    var alert :- DecodeString(body, "alert");
    var effect :- DecodeString(body, "effect");
    var transitionTime :- DecodeUint(body, "transitiontime", 0x1_0000);
    var scene :- DecodeString(body, "scene");
    Some(GroupState(on, bri as uint8, hue as uint16, sat as uint8, xy, ct as uint16,
                    alert, effect, transitionTime as uint16, scene))
  }

  /** Leaving zeros out loses nothing: decoding the encoded body gives back the state. */
  lemma UnmarshalMarshal(s: GroupState)
    ensures Unmarshal(Marshal(s)) == Some(s)
  {
    var body := Marshal(s);
    assert DecodeUint(body, "bri", 0x100) == Some(s.bri as int);
    assert DecodeUint(body, "hue", 0x1_0000) == Some(s.hue as int);
    assert DecodeUint(body, "sat", 0x100) == Some(s.sat as int);
    assert DecodeUint(body, "ct", 0x1_0000) == Some(s.ct as int);
    assert DecodeUint(body, "transitiontime", 0x1_0000) == Some(s.transitionTime as int);
    assert DecodeString(body, "alert") == Some(s.alert);
    assert DecodeString(body, "effect") == Some(s.effect);
    assert DecodeString(body, "scene") == Some(s.scene);
  }

  /** No encoded GroupState switches a group off: "on" is either absent or true. */
  lemma OffNeverSent(s: GroupState)
    ensures Marshal(s) != map["on" := Bool(false)]
    ensures "on" !in Marshal(s) || Marshal(s)["on"] == Bool(true)
  {
    assert "on" in map["on" := Bool(false)];
  }

  /**
   * A brightness of 0 is dropped, although it does not mean off: the request is the one that
   * leaves the brightness unchanged.
   */
  lemma ZeroBrightnessDropped(s: GroupState)
    ensures "bri" !in Marshal(s.(bri := 0))
    ensures Marshal(s.(bri := 0)) == Marshal(s) - {"bri"}
  {
    forall k | k in GroupKeys && k != "bri"
      ensures FieldValue(s.(bri := 0), k) == FieldValue(s, k)
    {
    }
    assert Marshal(s.(bri := 0)).Keys == (Marshal(s) - {"bri"}).Keys;
  }

  /** Every number sent lies within its field's unsigned range and is never zero. */
  lemma SentNumbersInRange(s: GroupState)
    ensures "bri" in Marshal(s) ==> 1 <= Marshal(s)["bri"].i <= 255
    ensures "sat" in Marshal(s) ==> 1 <= Marshal(s)["sat"].i <= 255
    ensures "hue" in Marshal(s) ==> 1 <= Marshal(s)["hue"].i <= 65535
    ensures "ct" in Marshal(s) ==> 1 <= Marshal(s)["ct"].i <= 65535
    ensures "transitiontime" in Marshal(s) ==> 1 <= Marshal(s)["transitiontime"].i <= 65535
  {
  }

  /** The zero state sends an empty object. */
  lemma NoChangeSendsNothing()
    ensures Marshal(NoChange) == map[]
  {
    assert Marshal(NoChange).Keys == {};
  }

  /** The resource a group's state update is sent to. */
  function ActionPath(groupID: string): (path: string)
    ensures |path| == |groupID| + 15
    ensures path[..8] == "/groups/" && path[|path| - 7..] == "/action"
    ensures path[8..|path| - 7] == groupID
  {
    "/groups/" + groupID + "/action"
  }

  /** Different groups are updated through different URIs of the same bridge: the URI names the group. */
  lemma ActionPathsDistinct(b: Bridge, g: string, h: string)
    requires b.ToURI(ActionPath(g)) == b.ToURI(ActionPath(h))
    ensures g == h
  {
    ToURIInjective(b, ActionPath(g), ActionPath(h));
  }

  /** SetGroupState: PUT the encoded state to the group's action resource; the reply comes back as delivered. */
  function SetGroupState(b: Bridge, groupID: string, state: GroupState, send: Transport<seq<Value>>): (r: Result<seq<Value>, Error>)
    reads b
    ensures r == send(Request(Put, b.ToURI(ActionPath(groupID)), Some(Marshal(state))))
  {
    send(b.RequestTo(Put, ActionPath(groupID), Some(Marshal(state))))
  }
}
