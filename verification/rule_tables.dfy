/** The rule tables of the request mapper: the appliance's property names
    and value codes for each power state, purify mode and humidify level.
    Value codes are fixed-width strings of decimal digits. */
module RuleTables {
  import opened Wrappers
  import opened Local

  /** The mapper's only runtime failure: a table with no entry for its
      argument. */
  datatype MapError = NotImplemented

  /** `code` is a value code of `width` decimal digits. */
  predicate IsCode(code: string, width: nat) {
    && |code| == width
    && forall i :: 0 <= i < |code| ==> '0' <= code[i] <= '9'
  }

  function PowerStatePropertyValue(power: Power): (code: string)
    ensures IsCode(code, 2)
  {
    match power
    case ON => "01"
    case OFF => "00"
  }

  /** The mode slot is `p_01` with the humidifier off and `p_03` otherwise,
      whatever the mode. */
  function PurifyModePropertyName(humidify: Humidify): string {
    if humidify == Humidify.OFF then "p_01" else "p_03"
  }

  function PurifyModePropertyValue(purify: Purify): (code: string)
    ensures IsCode(code, 4)
  {
    match purify
    case SMART => "0000"
    case MOIST => "0500"
    case AUTOFAN => "0200"
    case POLLEN => "0400"
    case ECONO => "0300"
    case CIRCULATOR => "0600"
    case QUIET => "0100"
    case LOW => "0100"
    case STANDARD => "0100"
    case TURBO => "0100"
  }

  /** The manual fan modes: they carry a separate fan level. */
  predicate IsFan(purify: Purify) {
    purify in {QUIET, Purify.LOW, Purify.STANDARD, TURBO}
  }

  function FanLevelPropertyName(humidify: Humidify): string {
    if humidify == Humidify.OFF then "p_04" else "p_06"
  }

  /** Only called for the manual fan modes, so the source's throwing
      fall-through is excluded by the precondition. */
  function FanLevelPropertyValue(purify: Purify): (code: string)
    requires IsFan(purify)
    ensures IsCode(code, 2)
  {
    match purify
    case QUIET => "00"
    case LOW => "01"
    case STANDARD => "02"
    case TURBO => "04"
  }

  function HumidifyStatePropertyValue(humidify: Humidify): (code: string)
    ensures IsCode(code, 2)
  {
    if humidify == Humidify.OFF then "00" else "02"
  }

  /** The humidity-level slot depends on the mode; the implicit-humidity
      modes have none, which the source reports by throwing. */
  function HumidifyLevelPropertyName(purify: Purify): (r: Result<string, MapError>)
    ensures r.Failure? <==> ImplicitHumidity(purify)
  {
    match purify
    case AUTOFAN => Success("p_14")
    case ECONO => Success("p_15")
    case POLLEN => Success("p_16")
    case CIRCULATOR => Success("p_18")
    case QUIET => Success("p_13")
    case LOW => Success("p_13")
    case STANDARD => Success("p_13")
    case TURBO => Success("p_13")
    case SMART => Failure(NotImplemented)
    case MOIST => Failure(NotImplemented)
  }

  /** Only called with the humidifier on, so the source's throwing
      fall-through for OFF is excluded by the precondition. */
  function HumidifyLevelPropertyValue(humidify: Humidify): (code: string)
    requires humidify != Humidify.OFF
    ensures IsCode(code, 2)
  {
    match humidify
    case LOW => "01"
    case STANDARD => "02"
    case HIGH => "03"
  }

  /** The properties written into the purify group never collide: the mode
      slot, the fan slot and the humidity-level slot have distinct names
      for every mode and level, so first-write-wins never drops one of
      them. */
  lemma PurifyGroupSlotsDistinct(purify: Purify, humidify: Humidify)
    ensures PurifyModePropertyName(humidify) != FanLevelPropertyName(humidify)
    ensures HumidifyLevelPropertyName(purify).Success? ==>
              && HumidifyLevelPropertyName(purify).value != PurifyModePropertyName(humidify)
              && HumidifyLevelPropertyName(purify).value != FanLevelPropertyName(humidify)
  {
  }
}
