/** The local (domain-level) command accepted by the request mapper:
    an optional power state, an optional purify mode and an optional
    humidify level. */
module Local {
  import opened Wrappers

  datatype Power = ON | OFF

  datatype Purify =
    | SMART
    | AUTOFAN
    | ECONO
    | POLLEN
    | MOIST
    | CIRCULATOR
    | QUIET
    | LOW
    | STANDARD
    | TURBO

  datatype Humidify = OFF | LOW | STANDARD | HIGH

  /** Every field is optional; an absent field is `None`. */
  datatype LocalRequest = LocalRequest(
    power: Option<Power>,
    purify: Option<Purify>,
    humidify: Option<Humidify>)

  /** The modes whose humidity is implicit: they never carry a level. */
  predicate ImplicitHumidity(purify: Purify) {
    purify == SMART || purify == MOIST
  }

  /** A (mode, humidity) pair the appliance accepts: the implicit-humidity
      modes must come with the humidifier off. */
  predicate ValidCommand(purify: Purify, humidify: Humidify) {
    ImplicitHumidity(purify) ==> humidify == Humidify.OFF
  }
}
