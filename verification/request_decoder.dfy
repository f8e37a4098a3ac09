/** The appliance's reading of a request tree: the inverse of the request
    mapper's encoding, used to state that the encoding loses nothing. */
module RequestDecoder {
  import opened Wrappers
  import opened Local
  import opened Dsapi
  import opened PropertyTree
  import opened RuleTables
  import opened RequestMapper

  function PowerOfCode(code: string): Option<Power> {
    if code == "01" then Some(ON)
    else if code == "00" then Some(Power.OFF)
    else None
  }

  /** The purify mode from its mode code and, for the shared manual code
      "0100", its fan level code. */
  function PurifyOfCodes(modeCode: string, fanCode: Option<string>): Option<Purify> {
    if modeCode == "0000" then Some(SMART)
    else if modeCode == "0500" then Some(MOIST)
    else if modeCode == "0200" then Some(AUTOFAN)
    else if modeCode == "0400" then Some(POLLEN)
    else if modeCode == "0300" then Some(ECONO)
    else if modeCode == "0600" then Some(CIRCULATOR)
    else if modeCode == "0100" then
      match fanCode
      case Some("00") => Some(QUIET)
      case Some("01") => Some(Purify.LOW)
      case Some("02") => Some(Purify.STANDARD)
      case Some("04") => Some(TURBO)
      case _ => None
    else None
  }

  function LevelOfCode(code: string): Option<Humidify> {
    if code == "01" then Some(Humidify.LOW)
    else if code == "02" then Some(Humidify.STANDARD)
    else if code == "03" then Some(HIGH)
    else None
  }

  /** Where the reader finds the humidity level of each mode; the modes
      with implicit humidity have no level slot. */
  function LevelSlotOf(purify: Purify): Option<string> {
    match purify
    case AUTOFAN => Some("p_14")
    case ECONO => Some("p_15")
    case POLLEN => Some("p_16")
    case CIRCULATOR => Some("p_18")
    case QUIET => Some("p_13")
    case LOW => Some("p_13")
    case STANDARD => Some("p_13")
    case TURBO => Some("p_13")
    case SMART => None
    case MOIST => None
  }

  /** The power field: `Some(None)` when no power is written, `None` when
      the code is unknown. */
  function DecodePower(groups: seq<Group>): Option<Option<Power>> {
    match Lookup(groups, PowerGroup, PowerStateProperty)
    case None => Some(None)
    case Some(code) =>
      match PowerOfCode(code)
      case None => None
      case Some(power) => Some(Some(power))
  }

  /** The purify and humidify fields, read from the humidifier state, the
      mode and fan slots of that state, and the level slot of the mode. */
  function DecodeMode(groups: seq<Group>): Option<(Option<Purify>, Option<Humidify>)> {
    match Lookup(groups, HumidifyGroup, HumidifyStateProperty)
    case None => Some((None, None))
    case Some(state) =>
      if state != "00" && state != "02" then None
      else
        var on := state == "02";
        match Lookup(groups, PurifyGroup, if on then "p_03" else "p_01")
        case None => None
        case Some(modeCode) =>
          match PurifyOfCodes(modeCode, Lookup(groups, PurifyGroup, if on then "p_06" else "p_04"))
          case None => None
          case Some(purify) =>
            if !on then Some((Some(purify), Some(Humidify.OFF)))
            else
              match LevelSlotOf(purify)
              case None => None
              case Some(levelName) =>
                match Lookup(groups, PurifyGroup, levelName)
                case None => None
                case Some(levelCode) =>
                  match LevelOfCode(levelCode)
                  case None => None
                  case Some(humidify) => Some((Some(purify), Some(humidify)))
  }

  function Decode(d: DsapiRequest): Option<LocalRequest> {
    if !IsEnvelope(d) then None
    else
      match (DecodePower(GroupList(d)), DecodeMode(GroupList(d)))
      case (Some(power), Some((purify, humidify))) => Some(LocalRequest(power, purify, humidify))
      case _ => None
  }

  /** The value codes of a purify mode decode back to it. */
  lemma PurifyCodesRoundTrip(purify: Purify)
    ensures PurifyOfCodes(PurifyModePropertyValue(purify),
              if IsFan(purify) then Some(FanLevelPropertyValue(purify)) else None) == Some(purify)
  {
  }

  /** A tree whose humidify and purify slots hold the codes of a valid
      (mode, humidity) pair decodes to that pair. */
  lemma DecodeModeSlots(groups: seq<Group>, purify: Purify, humidify: Humidify)
    requires ValidCommand(purify, humidify)
    requires Lookup(groups, HumidifyGroup, HumidifyStateProperty) == Some(HumidifyStatePropertyValue(humidify))
    requires Lookup(groups, PurifyGroup, PurifyModePropertyName(humidify)) == Some(PurifyModePropertyValue(purify))
    requires Lookup(groups, PurifyGroup, FanLevelPropertyName(humidify))
             == (if IsFan(purify) then Some(FanLevelPropertyValue(purify)) else None)
    requires humidify != Humidify.OFF ==>
               Lookup(groups, PurifyGroup, HumidifyLevelPropertyName(purify).value)
               == Some(HumidifyLevelPropertyValue(humidify))
    ensures DecodeMode(groups) == Some((Some(purify), Some(humidify)))
  {
    PurifyCodesRoundTrip(purify);
    if humidify != Humidify.OFF {
      assert LevelSlotOf(purify) == Some(HumidifyLevelPropertyName(purify).value);
      assert LevelOfCode(HumidifyLevelPropertyValue(humidify)) == Some(humidify);
    }
  }

  /** A tree whose power slot holds the code of `power`, or nothing when
      it is absent, decodes to `power`. */
  lemma DecodePowerSlot(groups: seq<Group>, power: Option<Power>)
    requires Lookup(groups, PowerGroup, PowerStateProperty)
             == (if power.Some? then Some(PowerStatePropertyValue(power.value)) else None)
    ensures DecodePower(groups) == Some(power)
  {
    if power.Some? {
      assert PowerOfCode(PowerStatePropertyValue(power.value)) == power;
    }
  }

  /** Round trip: decoding the encoding of a command gives the command back,
      for every encodable command whose purify and humidify are given
      together. */
  lemma MapDecode(req: LocalRequest)
    requires Map(req).Success?
    requires req.purify.Some? <==> req.humidify.Some?
    ensures Decode(Map(req).value) == Some(req)
  {
    var d := Map(req).value;
    var groups := GroupList(d);
    MapLookup(req);
    DecodePowerSlot(groups, req.power);
    var mode := DecodeMode(groups);
    if HasMode(req) {
      DecodeModeSlots(groups, req.purify.value, req.humidify.value);
      assert mode == Some((req.purify, req.humidify));
    } else {
      assert Lookup(groups, HumidifyGroup, HumidifyStateProperty) == None;
      assert mode == Some((req.purify, req.humidify));
    }
    assert Decode(d) == Some(LocalRequest(req.power, req.purify, req.humidify));
  }

  /** Distinct encodable commands never produce the same request: the
      encoding loses nothing, provided purify and humidify are given
      together (one without the other writes nothing). */
  lemma MapInjective(a: LocalRequest, b: LocalRequest)
    requires Map(a).Success? && Map(b).Success?
    requires a.purify.Some? <==> a.humidify.Some?
    requires b.purify.Some? <==> b.humidify.Some?
    requires Map(a) == Map(b)
    ensures a == b
  {
    MapDecode(a);
    MapDecode(b);
  }
}
