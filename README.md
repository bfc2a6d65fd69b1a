# Philips Hue client: light and group requests

This project models the core of a small Go client for the Philips Hue bridge in Dafny. The
client speaks the bridge's REST API at `http://<address>/api/<username>/...`. It lists lights
and groups, looks a light up by identifier or by name, and sends state updates to lights and
groups. The model covers what the client computes around each HTTP exchange:

- the URI a resource path becomes;
- the sparse parameter map a light-state update is sent as;
- the `omitempty` encoding of a group-state update;
- how a decoded response is re-keyed into lights or groups.

The exchange itself is a `Transport`. It is a function parameter from the request (verb, URI,
JSON body) to what the network and the JSON decoder deliver: a decoded value or an error.

Modules: one per source file, except that bridge.go is split in two (`HueBridge` and `LightList`), plus four small support modules:

- `Wrappers`: `Option` and `Result`.
- `Json`: JSON values as the encoder and decoder see them, and Go's `omitempty` emptiness test.
- `Strconv`: Go's `strconv.ParseBool` and `strconv.Atoi` on a 64-bit platform, with their errors
  discarded as the caller does. An unparsable number reads as 0; one that overflows saturates,
  and the overflow is reported before any trailing junk is read.
- `Listing`: what the three listing loops share, namely the keys of the listed elements and how each step moves one key from the keys still to visit to the list.
- `HueBridge` (bridge.go, lines 13-63): the `Bridge` class, its constructor, `Debug`, `toURI`
  and the requests of `get`/`post`/`put`.
- `HueLight` (light.go): lights, the light-state parameter map and the requests built on it.
- `LightList` (bridge.go, lines 65-172): `GetAllLights`, `GetNewLights`, `FindLightByID` and
  `FindLightByName`. This part of bridge.go is a module of its own because lights refer to bridges.
- `HueGroup` (group.go): `GroupState`, its encoding and `SetGroupState`.
- `GroupList` (group_list.go): `GetAllGroups`.

Go visits a map in no fixed order. The listing loops therefore take keys in an arbitrary order
(`:|`), and their contracts speak of multisets of identifiers, never of positions.

Where the code departs from its own comments, or from what its authors evidently meant, the model follows the code, with one exception (bridge.go:167, below):

- A group brightness of 0 is not transmitted. `omitempty` drops it, although the field's
  comment says 0 is not off (`HueGroup.ZeroBrightnessDropped`).
- For the same reason `on: false` can never be sent to a group (`HueGroup.OffNeverSent`).
- Group `"0"` is listed by `GetAllGroups` whenever the bridge reports it. The comment at
  group_list.go:19 says it is excluded, but nothing filters it (`GroupList.GroupZeroListed`).
- A light's numeric fields are sent as Atoi reads them, not verbatim. `"abc"`, `"1.5"` and
  `"12a"` are sent as 0, and an `on` that ParseBool rejects is sent as `false`.
- bridge.go:167 writes `Light{..., Bridge: b}`, but the `Light` struct's field is `bridge`
  (light.go:13). As written this does not compile. The model attaches the bridge, as evidently
  intended.
- `GetNewLights` never attaches a bridge (bridge.go:93). Its lights carry `null`. Any request
  through such a light dereferences nil, which the model reports as `Panicked`.
- group_list.go:37-40 appends `&group`, the address of the range variable. Before Go 1.22
  every element would alias one variable and end up as the last group. The model assumes
  per-iteration copies (Go 1.22 and later): each iteration appends its own copy.

## Model

| member | source | states |
|---|---|---|
| Strconv.ParseBool | light.go:117-120 | accepts exactly the six true spellings and the six false spellings Go accepts; anything else is a syntax error |
| Strconv.ParseFormatBool | light.go:117-120 | ParseBool reads back both canonical spellings |
| Strconv.ScanDigits | light.go:121-123 | the digit scan never yields a value below what it started from or above the unsigned 64-bit maximum |
| Strconv.Atoi | light.go:121-123 | the result of Atoi with its error discarded always lies in the signed 64-bit range, and the empty string reads as 0 |
| Strconv.ScanDigitsAppend | light.go:121-123 | scanning a concatenation continues from where the first part stopped, and stops at its first error |
| Strconv.ScanFormatNat | light.go:121-123 | scanning the decimal digits of an unsigned 64-bit number gives the number back |
| Strconv.AtoiItoa | light.go:121-123 | Atoi reads back every signed 64-bit number written in decimal |
| Strconv.AtoiNotANumber | light.go:121-123 | a string starting with neither a sign nor a digit reads as 0 |
| Strconv.ScanDecimal | light.go:121-123 | the scan of a run of digits is its decimal value while that fits in 64 unsigned bits, and a range error beyond |
| Strconv.AtoiDecimal | light.go:121-123 | a sign (none, plus or minus) and a run of digits read as the signed decimal value, leading zeros included, saturated to the signed 64-bit range |
| Strconv.AtoiSyntaxError | light.go:121-123 | a non-digit after the sign and a run of digits that does not overflow reads as 0, whatever follows ("1.5", "12a", "-x", "1_000") |
| Strconv.AtoiSignAlone | light.go:121-123 | a sign alone reads as 0 |
| Strconv.AtoiSaturatesBeforeSyntaxError | light.go:121-123 | digits that overflow saturate to the maximum, or after a minus to the minimum, even when junk follows them |
| HueBridge.Bridge.constructor | bridge.go:22-24 | NewBridge stores the address and the username, with debug off |
| HueBridge.Bridge.Debug | bridge.go:27-30 | Debug sets only the debug flag and returns the same bridge; every URI stays as it was |
| HueBridge.Bridge.ToURI | bridge.go:32-34 | the URI is "http://", the address, "/api/", the username and the path, in that order and nothing else |
| HueBridge.RequestToInjective | bridge.go:36-63 | `Bridge.RequestTo`, the request get, post and put send (the verb, the URI of the path, the body), determines its verb, its resource path and its body on one bridge |
| HueBridge.ToURIInjective | bridge.go:32-34 | on one bridge, different paths give different URIs |
| HueLight.LightParams | light.go:114-144 | one key per set field and none for an unset one, the keys drawn from the nine names; alert, effect and xy (an empty non-nil xy included) copied verbatim; numbers as Atoi reads them; on true exactly when ParseBool reads true |
| HueLight.SetState | light.go:114-160 | PUT of the parameter map to /lights/<id>/state, the reply passed back; a light without a bridge panics |
| HueLight.On | light.go:88-94 | the payload is exactly {on: true, effect: "none"} on the light's state resource |
| HueLight.Off | light.go:97-100 | the payload is exactly {on: false} on the light's state resource |
| HueLight.ColorLoop | light.go:104-110 | the payload is exactly {on: true, effect: "colorloop"} on the light's state resource |
| HueLight.SetName | light.go:69-85 | PUT of exactly {name: newName} to /lights/<id>; a light without a bridge panics |
| HueLight.ParamsAre | light.go:115-144 | a map with the keys and values the field table gives is the parameter map |
| HueLight.UnparsableBrightnessSentAsZero | light.go:121-123 | every brightness with a syntax error (a non-digit after the sign and digits that do not overflow) is still sent, as 0 |
| HueLight.UnparsableOnSentAsOff | light.go:117-120 | every non-empty `on` that ParseBool rejects is sent as false |
| HueLight.EmptyXySent | light.go:130-132 | in any update, an empty but non-nil xy is sent as an empty list |
| HueLight.UnsetSendsNothing | light.go:115-144 | the all-unset update sends an empty map |
| Listing.Project | bridge.go:165-169 | the keys of a listed sequence, position by position |
| Listing.MoveKey | group_list.go:36-41 | listing one more element moves its key from the keys still to visit to the listed keys |
| Listing.ListedOnce | bridge.go:165-169 | when the listed keys are the map's keys as a multiset, there are as many elements as keys, each key listed exactly once |
| LightList.GetAllLights | bridge.go:149-172 | GET /lights; exactly one light per decoded entry, identified by its key, named as decoded, with the bridge attached; a failed call is passed on unchanged |
| LightList.AllListedOnce | bridge.go:165-169 | as many lights as entries, each key listed exactly once |
| LightList.ReadableStep | bridge.go:89-96 | visiting a readable entry keeps the visited entries readable |
| LightList.NewEntriesStep | bridge.go:89-96 | appending the light of a named entry keeps every listed light tied to its entry |
| LightList.GetNewLights | bridge.go:69-99 | GET /lights/new; the last-scan time is the string at "lastscan"; one light per other entry, identified by its key, named by its "name", with no bridge; a response of another shape panics; a failed call is passed on |
| LightList.NewListedCount | bridge.go:89-96 | there is one new light fewer than entries, and none is identified as "lastscan" |
| LightList.FindLightByID | bridge.go:102-115 | the light with that key, or a not-found error reading "unable to find light with id, " and the identifier; a failed listing is passed on |
| LightList.FindLightByName | bridge.go:119-132 | a listed light carrying the name whenever one exists, otherwise a not-found error reading "unable to find light with name, " and the name; a failed listing is passed on |
| HueGroup.Marshal | group.go:9-70 | a key for every non-zero field and for no other, holding the field's value; on is sent only as true |
| HueGroup.UnmarshalMarshal | group.go:9-70 | decoding the encoded body gives back the state: omitting zeros loses nothing |
| HueGroup.OffNeverSent | group.go:10-11 | no encoded group state carries on: false |
| HueGroup.ZeroBrightnessDropped | group.go:12-18 | a brightness of 0 is left out, and the body equals that of the same state with the brightness key removed |
| HueGroup.SentNumbersInRange | group.go:18-66 | every number sent is non-zero and within its field's unsigned range |
| HueGroup.NoChangeSendsNothing | group.go:9-70 | the zero state sends an empty object |
| HueGroup.ActionPath | group.go:80 | the path is "/groups/", the group identifier and "/action" |
| HueGroup.ActionPathsDistinct | group.go:80 | the URI of a group's action resource names the group |
| HueGroup.SetGroupState | group.go:74-89 | PUT of the encoded state to the group's action resource, the reply passed back |
| GroupList.GetAllGroups | group_list.go:19-44 | GET /groups; exactly one group per decoded entry: the decoded record with its key as identifier and the bridge attached; a failed call is passed on |
| GroupList.AllGroupsListedOnce | group_list.go:36-41 | as many groups as entries, each key listed exactly once, with name, type, class and lights as decoded |
| GroupList.GroupZeroListed | group_list.go:19-41 | group "0" is listed whenever it is in the response |

## Left out

- HTTP: building requests, the client, reading and closing bodies (bridge.go:36-63). A request
  is a value handed to the `Transport` parameter, and transport and decode failures come back
  through it.
- Debug logging (bridge.go:39, 47, 55). The flag is modelled; the log output is a side effect
  only.
- JSON text. A body is the key/value map that would be encoded, and a reply is what the decoder
  delivers. Encoder failures (a NaN or infinite coordinate) are not modelled.
- The `Result` envelope. It is not part of this model: replies are opaque sequences of JSON values.
- `GetLightAttributes` (light.go:55-65), `Search` (bridge.go:136-146) and the `LightState` and
  `LightAttributes` records. These calls only fetch and decode, with no logic of their own.
- Coordinates. `xy` is a sequence of reals; float32/float64 precision is not modelled.
- A partial result that Go returns together with a decode error. The model returns the error
  alone.
- The order of returned lists, which comes from Go's map iteration order.
- Panics. A failed type assertion in `GetNewLights`, or a request through a light without a
  bridge, is the error value `Panicked`, not a crash.
- SetState: the parameter map is built by the function `LightParams` rather than by nine
  in-place insertions into a mutable map. The in-place filling is not modelled. The keys are
  distinct, so the order of the insertions does not change the map.
- Strconv.Atoi: the platform's `int` is taken to be 64 bits wide.
