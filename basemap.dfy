/**
 * The map element enumerations the airspace code uses. The declaring header
 * (basemapelement.h) is not part of this model, so only the enumerators the
 * core names appear, by name.
 */
module BaseMap {

  /** BaseMapElement::objectType, restricted to the airspace classes and the two markers the core uses. */
  datatype ObjectType =
    | NotSelected | AirUkn
    | AirA | AirB | AirC | AirD | AirElow | AirEhigh | AirF
    | ControlC | ControlD | Danger | Restricted | Prohibited | LowFlight | Tmz | SuSector

  /** BaseMapElement::elevationType: the reference an altitude limit is measured from. */
  datatype ElevationType = NotSet | MSL | GND | FL | STD | UNLTD

  /**
   * The integer an altitude limit holds before it is parsed: the source
   * assigns the enumerator NotSet to an int, which is taken here to be the
   * first enumerator, 0.
   */
  const NotSetValue: int := 0
}
