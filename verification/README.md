# dsapi-local request encoder, in Dafny

A Dafny model of the core of `dsapi-local`, a small service that controls a
networked air purifier/humidifier. It covers two pure pieces of logic:

- **The request mapper** (`RequestMapper`). It turns a local command into the
  appliance's wire request. A local command holds an optional power state, an
  optional purify mode and an optional humidify level. The wire request is a
  fixed envelope: one "set" operation (`op` 3) addressed to
  `/dsiot/edge/adr_0100.dgc_status`. Its `dgc_status` node has a single `e_1002`
  child, and that child holds the groups of properties being written. Rule tables
  map each enum to a property name and a 2- or 4-digit value code. A
  get-or-create builder inserts each property into its group. An existing
  property is never overwritten, so the first write wins.
- **The controller's input parsing** (`AppController`). `toMode` and
  `toHumidity` match the request strings case-insensitively against the enum
  names. A mode with implicit humidity (SMART, MOIST) must come without a
  humidity. Either parse failing makes `setMode` answer "bad request".

Files and modules:

| file | module | models |
|---|---|---|
| `wrappers.dfy` | `Wrappers` | `Option` for `undefined`/`null`, `Result` for throwing operations |
| `local.dfy` | `Local` | `src/purifier/request.local.ts`: `Power`, `Purify`, `Humidify`, `LocalRequest` |
| `dsapi.dfy` | `Dsapi` | `src/purifier/request.dsapi.ts`: the wire tree, the fixed envelope, name lists, well-formedness |
| `property_tree.dfy` | `PropertyTree` | `setProperty`, `getOrCreateGroup`, `getOrCreateProperty` and `find` |
| `rule_tables.dfy` | `RuleTables` | the `to…PropertyName` / `to…PropertyValue` tables and `isFan` |
| `request_mapper.dfy` | `RequestMapper` | `map` and its four steps, plus a literal reference tree (`ExpectedGroups`) |
| `request_decoder.dfy` | `RequestDecoder` | the inverse of the encoding, used to prove that it loses nothing |
| `app_controller.dfy` | `AppController` | `toMode`, `toHumidity`, and the accept/reject decision of `setMode` |

Modelling choices:

- The mapper's state is the envelope. Every step writes only into the group
  list returned by `getGroupList`. So the steps thread that list, and `Map` wraps
  it once with `Dsapi.Envelope`. `Dsapi.EnvelopeDeterminedByGroups` shows that
  nothing else in an envelope can vary.
- Some throwing fall-throughs are guarded at every call site: the fan value is
  only looked up for a fan mode, and the humidify level value only when humidify
  is not OFF. These fall-throughs become preconditions. The power table and the
  mode-value table are total on the closed enums. The one reachable throw is the
  humidify-level property name for SMART/MOIST, which becomes
  `Failure(NotImplemented)`. The source writes `e_3001` just before that throw,
  but `map` then never returns the tree, so the model returns only the failure.
- The controller's `Mode` and `Humidity` enums are assumed to have the same
  members, in the same order, as `Purify` and `Humidify`. Their defining files
  are not part of this model, so they are type aliases here.
- `setMode` is modelled as its decision: `Accepted(mode, humidity)`, or
  `BadRequest("Invalid mode" | "Invalid humidity")`. The HTTP exception and the
  forwarding to the service are not modelled.
- Lower-casing is ASCII only. This is an assumption. JavaScript's
  `toLowerCase` also maps some non-ASCII characters to ASCII letters: the Kelvin
  sign becomes `k`, and `İ` becomes `i` followed by a combining dot. None of the
  accepted names contains a `k`, and the combining dot can never match, so the
  set of accepted strings should be the same.

Notes on behaviour of the code that a reader might not expect:

- One might expect the last write to a property to win. `getOrCreateProperty`
  keeps the first value.
- One might expect MOIST always to use the `p_03` mode slot and to count as
  "humidifier on". The mode slot name and the `p_3F` state code depend only on
  `humidify`. So MOIST with OFF writes `p_01 = "0500"` and `p_3F = "00"`.
- `mapPower` runs last, so `e_A002` comes after `e_3007` and `e_3001`.

## Model

| member | source | states |
|---|---|---|
| `Dsapi.Envelope` | src/purifier/requestMapper.ts:14-32 | the request is one operation 3 on `/dsiot/edge/adr_0100.dgc_status`, with `dgc_status` holding a single `e_1002`; the groups are exactly the children of `e_1002` |
| `Dsapi.EnvelopeDeterminedByGroups` | src/purifier/requestMapper.ts:197-199 | an envelope is the fixed shape around its group list, so only the group list can differ between requests |
| `PropertyTree.IndexOf` | src/purifier/requestMapper.ts:189 | `find` returns the first entry with the name, and finds nothing exactly when the name is absent |
| `PropertyTree.GetOrCreateGroup` | src/purifier/requestMapper.ts:187-195 | returns the first group with the name; when there is none, it appends an empty group with that name at the end and leaves the rest unchanged |
| `PropertyTree.GetOrCreateProperty` | src/purifier/requestMapper.ts:201-209 | an existing property is returned and the list is unchanged (its value kept); otherwise a new property with the given value is appended |
| `PropertyTree.SetProperty` | src/purifier/requestMapper.ts:182-185 | the group names gain the target group at the end only when it was missing; every other group is unchanged |
| `PropertyTree.SetPropertyCreatesGroup` | src/purifier/requestMapper.ts:187-195 | a write into a missing group appends that group, holding just the written property |
| `PropertyTree.SetPropertyAppends` | src/purifier/requestMapper.ts:201-208 | a write of a new property appends it at the end of the first group with that name; nothing else changes |
| `PropertyTree.SetPropertyKeepsExisting` | src/purifier/requestMapper.ts:201-208 | first write wins: writing a property that exists leaves the whole tree unchanged, including its value |
| `PropertyTree.SetPropertyLookup` | src/purifier/requestMapper.ts:182-209 | viewed as a map from (group, property) to value, the written key keeps its old value if it had one and takes the new value otherwise; every other key reads as before |
| `PropertyTree.SetPropertyIdempotent` | src/purifier/requestMapper.ts:182-185 | writing the same key twice, with any second value, gives the same tree as writing it once |
| `PropertyTree.SetPropertyWellFormed` | src/purifier/requestMapper.ts:187-209 | get-or-create keeps group names pairwise distinct, and property names within each group pairwise distinct |
| `RuleTables.HumidifyLevelPropertyName` | src/purifier/requestMapper.ts:151-168 | the humidity-level slot name fails (the source throws) exactly for SMART and MOIST |
| `RuleTables.PurifyGroupSlotsDistinct` | src/purifier/requestMapper.ts:151-168 | the mode slot (`p_01`/`p_03`), the fan slot (`p_04`/`p_06`) and the level slot (`p_13`…`p_18`) never share a name, so first-write-wins never drops one of them |
| `RequestMapper.Map` | src/purifier/requestMapper.ts:34-41 | the encoding fails exactly when purify and humidify are both given, the mode is SMART or MOIST, and humidify is not OFF; otherwise it returns the fixed envelope |
| `RequestMapper.MapPurifyFanGroups` | src/purifier/requestMapper.ts:60-130 | the purify and fan steps create `e_3007` holding the mode slot (`p_01` iff humidify is OFF, else `p_03`), then for QUIET/LOW/STANDARD/TURBO the fan slot (`p_04` iff OFF, else `p_06`) |
| `RequestMapper.MapHumidifyGroups` | src/purifier/requestMapper.ts:132-180 | the humidify step appends `e_3001` with `p_3F`, and, when humidify is not OFF, appends the level slot to `e_3007` |
| `RequestMapper.MapGroups` | src/purifier/requestMapper.ts:34-41 | a successful encoding holds exactly the reference groups: `e_3007`, `e_3001` (only when purify and humidify are both given), then `e_A002` (only when power is given), with properties in insertion order |
| `RequestMapper.MapIsExpectedEnvelope` | src/purifier/requestMapper.ts:14-41 | every encodable command encodes to the fixed envelope around the reference groups |
| `RequestMapper.MapWellFormed` | src/purifier/requestMapper.ts:187-209 | after `map`, group names are pairwise distinct, and so are property names within each group |
| `RequestMapper.MapLookup` | src/purifier/requestMapper.ts:43-180 | read as a key-value map, power sits at `e_A002.p_01` exactly when given; with both purify and humidify, `e_3001.p_3F`, the mode slot, the fan slot (only for a fan mode) and the level slot (only when humidify is not OFF) hold their codes; otherwise `e_3007` and `e_3001` do not exist |
| `RequestMapper.ExpectedVectors` | src/purifier/requestMapper.ts:43-180 | literal encodings (the reference groups, which `MapIsExpectedEnvelope` equates with the output of `map`): power ON alone gives `e_A002.p_01="01"`; QUIET/OFF, MOIST/OFF, QUIET/LOW and AUTOFAN/HIGH give the exact `e_3007`/`e_3001` contents (e.g. `p_03="0200"`, `p_14="03"`, `p_3F="02"`) |
| `RequestMapper.ExpectedVectorsLevelSlots` | src/purifier/requestMapper.ts:60-180 | literal encodings: SMART/OFF gives `e_3007` holding only `p_01="0000"` and `p_3F="00"`; with the humidifier on, ECONO, POLLEN, CIRCULATOR and TURBO put their level in `p_15`, `p_16`, `p_18` and `p_13` respectively, with TURBO's fan in `p_06="04"` |
| `RequestDecoder.PurifyCodesRoundTrip` | src/purifier/requestMapper.ts:72-130 | the mode value code, with the fan code for the shared manual code `"0100"`, identifies the purify mode |
| `RequestDecoder.MapDecode` | src/purifier/requestMapper.ts:34-180 | round trip: decoding the encoding returns the command, for every encodable command that gives purify and humidify together. The decoder has its own literal tables of value codes and level-slot names |
| `RequestDecoder.MapInjective` | src/purifier/requestMapper.ts:34-180 | two such commands with the same encoding are equal |
| `AppController.ToMode` | src/app.controller.ts:31-58 | a mode is returned exactly when the lower-cased input equals one of the ten names `smart`…`turbo`; a missing, empty or other input gives none |
| `AppController.ToHumidity` | src/app.controller.ts:60-79 | for SMART/MOIST: OFF exactly when the humidity is missing or empty, otherwise none; for other modes: the humidity whose name equals the lower-cased input, and none for a missing, empty or unknown input |
| `AppController.SetMode` | src/app.controller.ts:17-29 | "Invalid mode" exactly when the mode does not parse; "Invalid humidity" exactly when the mode parses and the humidity does not; otherwise it accepts exactly the parsed pair: the mode whose name is the lower-cased mode text, and OFF for SMART/MOIST with no or empty humidity, else the humidity whose name is the lower-cased humidity text. An accepted pair satisfies the SMART/MOIST-means-OFF rule |
| `AppController.SetModeAcceptsValid` | src/app.controller.ts:31-79 | every valid (mode, humidity) pair is accepted from the request naming it |
| `AppController.SetModeEncodes` | src/purifier/requestMapper.ts:132-168 | composition: a pair the controller accepts, with any power, encodes without reaching the throw in `toHumidifyLevelPropertyName` |
| `AppController.AcceptedIffEncodable` | src/app.controller.ts:60-63 | both directions: the mapper encodes a (mode, humidity) pair exactly when the controller accepts the request naming both values (the humidity is left out only for SMART/MOIST with OFF); the request naming an invalid pair, such as SMART with LOW, is rejected with "Invalid humidity" |

## Left out

- `src/app.service.ts`: the HTTP POST, the hard-coded address, logging and
  error handling are I/O. Its one piece of logic builds `{power: ON, purify,
  humidify}` for the mapper, and `AppController.SetModeEncodes` covers every
  power value, including that one.
- `src/dsapi/iface.ts`: an alternative type shape that the core never uses.
- Serialisation to JSON text: the wire request is the `Dsapi` datatype, whose
  fields match the JSON keys one for one.
- NestJS decorators, `HttpException`, and `async`/`await`.
- Full Unicode `toLowerCase`: only ASCII letters are lowered (see above).
- Rule-table functions (`PowerStatePropertyValue`, `PurifyModePropertyValue`,
  `FanLevelPropertyValue`, `HumidifyStatePropertyValue`,
  `HumidifyLevelPropertyValue`): their own contracts state only the code
  format. Their exact codes, and the level-slot names of
  `HumidifyLevelPropertyName`, are pinned by `RequestDecoder.MapDecode` and by the
  vector lemmas `RequestMapper.ExpectedVectors` and
  `RequestMapper.ExpectedVectorsLevelSlots`.
