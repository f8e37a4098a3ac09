/** The REST controller's input parsing: the mode and humidity strings of a
    set-mode request are matched case-insensitively against the enum
    names, and a mode with implicit humidity must not carry a humidity.
    Either parse failing rejects the request. */
module AppController {
  import opened Wrappers
  import opened Local
  import opened RequestMapper

  /** The controller's own enums have the mapper's members in the same
      order, so the model uses the mapper's types for them. */
  type Mode = Purify
  type Humidity = Humidify

  /** The request body; each field may be missing. */
  datatype SetModeRequest = SetModeRequest(mode: Option<string>, humidity: Option<string>)

  /** What the endpoint does with a request: forward the parsed pair, or
      reject it with a bad-request message. */
  datatype Outcome = Accepted(mode: Mode, humidity: Humidity) | BadRequest(message: string)

  const InvalidMode: string := "Invalid mode"
  const InvalidHumidity: string := "Invalid humidity"

  /** A present, non-empty string: the truthy strings of the source. */
  predicate Truthy(s: Option<string>) {
    s.Some? && |s.value| > 0
  }

  /** Lower-cases the ASCII letters and keeps every other character. */
  function LowerChar(c: char): (r: char)
    ensures 'A' <= c <= 'Z' ==> 'a' <= r <= 'z' && r as int - c as int == 'a' as int - 'A' as int
    ensures !('A' <= c <= 'Z') ==> r == c
  {
    if 'A' <= c <= 'Z' then (c as int - 'A' as int + 'a' as int) as char else c
  }

  function ToLower(s: string): (r: string)
    ensures |r| == |s|
    ensures forall i :: 0 <= i < |s| ==> r[i] == LowerChar(s[i])
  {
    seq(|s|, i requires 0 <= i < |s| => LowerChar(s[i]))
  }

  /** The lower-case spelling under which each mode is accepted. */
  function ModeName(mode: Mode): string {
    match mode
    case SMART => "smart"
    case AUTOFAN => "autofan"
    case ECONO => "econo"
    case POLLEN => "pollen"
    case MOIST => "moist"
    case CIRCULATOR => "circulator"
    case QUIET => "quiet"
    case LOW => "low"
    case STANDARD => "standard"
    case TURBO => "turbo"
  }

  /** The lower-case spelling under which each humidity is accepted. */
  function HumidityName(humidity: Humidity): string {
    match humidity
    case OFF => "off"
    case LOW => "low"
    case STANDARD => "standard"
    case HIGH => "high"
  }

  /** Parses the mode: it is recognised exactly when its lower-cased text is
      one of the ten mode names; anything else, including a missing or
      empty mode, is rejected. */
  function ToMode(mode: Option<string>): (r: Option<Mode>)
    ensures forall m :: r == Some(m) <==> mode.Some? && ToLower(mode.value) == ModeName(m)
  {
    if Truthy(mode) then
      var s := ToLower(mode.value);
      if s == "smart" then Some(SMART)
      else if s == "autofan" then Some(AUTOFAN)
      else if s == "econo" then Some(ECONO)
      else if s == "pollen" then Some(POLLEN)
      else if s == "moist" then Some(MOIST)
      else if s == "circulator" then Some(CIRCULATOR)
      else if s == "quiet" then Some(QUIET)
      else if s == "low" then Some(Purify.LOW)
      else if s == "standard" then Some(Purify.STANDARD)
      else if s == "turbo" then Some(TURBO)
      else None
    else None
  }

  /** Parses the humidity for a given mode. A mode with implicit humidity
      accepts only a missing or empty humidity, read as OFF; every other
      mode requires one of the four humidity names, case-insensitively. */
  function ToHumidity(mode: Mode, humidity: Option<string>): (r: Option<Humidity>)
    ensures ImplicitHumidity(mode) ==> r == (if Truthy(humidity) then None else Some(Humidify.OFF))
    ensures !ImplicitHumidity(mode) ==>
              forall h :: r == Some(h) <==> humidity.Some? && ToLower(humidity.value) == HumidityName(h)
  {
    if mode == SMART || mode == MOIST then
      if Truthy(humidity) then None else Some(Humidify.OFF)
    else if Truthy(humidity) then
      var s := ToLower(humidity.value);
      if s == "off" then Some(Humidify.OFF)
      else if s == "low" then Some(Humidify.LOW)
      else if s == "standard" then Some(Humidify.STANDARD)
      else if s == "high" then Some(HIGH)
      else None
    else None
  }

  /** The endpoint's decision: an unparsable mode is rejected first, then
      an unparsable humidity; an accepted pair always satisfies the
      implicit-humidity rule. */
  function SetMode(body: SetModeRequest): (r: Outcome)
    ensures r == BadRequest(InvalidMode) <==> ToMode(body.mode).None?
    ensures r == BadRequest(InvalidHumidity) <==>
              ToMode(body.mode).Some? && ToHumidity(ToMode(body.mode).value, body.humidity).None?
    ensures forall m, h :: r == Accepted(m, h) <==>
              && body.mode.Some? && ToLower(body.mode.value) == ModeName(m)
              && if ImplicitHumidity(m) then !Truthy(body.humidity) && h == Humidify.OFF
                 else body.humidity.Some? && ToLower(body.humidity.value) == HumidityName(h)
    ensures r.Accepted? ==>
              && body.mode.Some? && ToLower(body.mode.value) == ModeName(r.mode)
              && ValidCommand(r.mode, r.humidity)
  {
    match ToMode(body.mode)
    case None => BadRequest(InvalidMode)
    case Some(mode) =>
      match ToHumidity(mode, body.humidity)
      case None => BadRequest(InvalidHumidity)
      case Some(humidity) => Accepted(mode, humidity)
  }

  /** The request naming a pair: the mode's name, and the humidity's name
      unless it is OFF for a mode whose humidity is implicit (such a mode
      accepts OFF only as a missing humidity). */
  function CanonicalBody(mode: Mode, humidity: Humidity): SetModeRequest {
    SetModeRequest(Some(ModeName(mode)),
      if ImplicitHumidity(mode) && humidity == Humidify.OFF then None else Some(HumidityName(humidity)))
  }

  /** Every valid (mode, humidity) pair can be requested. */
  lemma SetModeAcceptsValid(mode: Mode, humidity: Humidity)
    requires ValidCommand(mode, humidity)
    ensures SetMode(CanonicalBody(mode, humidity)) == Accepted(mode, humidity)
  {
    var body := CanonicalBody(mode, humidity);
    assert ToLower(ModeName(mode)) == ModeName(mode);
    assert ToMode(body.mode) == Some(mode);
    if !ImplicitHumidity(mode) {
      assert ToLower(HumidityName(humidity)) == HumidityName(humidity);
    }
  }

  /** Composition with the mapper: whatever the power, every pair the
      controller accepts encodes without reaching the mapper's throwing
      branch. */
  lemma SetModeEncodes(body: SetModeRequest, power: Option<Power>)
    requires SetMode(body).Accepted?
    ensures Map(LocalRequest(power, Some(SetMode(body).mode), Some(SetMode(body).humidity))).Success?
  {
  }

  /** The controller and the mapper agree on which pairs are valid: the
      mapper encodes a pair exactly when the controller accepts the request
      naming it, and the request naming an invalid pair is rejected for its
      humidity. */
  lemma AcceptedIffEncodable(mode: Mode, humidity: Humidity, power: Option<Power>)
    ensures Map(LocalRequest(power, Some(mode), Some(humidity))).Success?
        <==> SetMode(CanonicalBody(mode, humidity)) == Accepted(mode, humidity)
    ensures !ValidCommand(mode, humidity) ==> SetMode(CanonicalBody(mode, humidity)) == BadRequest(InvalidHumidity)
  {
    assert ToLower(ModeName(mode)) == ModeName(mode);
    if ValidCommand(mode, humidity) {
      SetModeAcceptsValid(mode, humidity);
    } else {
      assert ToMode(Some(ModeName(mode))) == Some(mode);
      assert Truthy(CanonicalBody(mode, humidity).humidity);
    }
  }
}
