/**
 * The power readings that PowerStateViewModel takes from IOKit, as values.
 *
 * The IOKit calls themselves are not modelled: the list of power-source
 * descriptions and the external adapter details are handed to the model as
 * inputs. A description is the property-list dictionary IOKit returns for one
 * power source.
 */
module Readings {

  datatype Option<+T> = None | Some(value: T)

  /** A property-list value: either one that bridges to a Swift Bool, or any other kind. */
  datatype PlistValue = Boolean(b: bool) | Other

  /** The dictionary describing one power source (or the adapter details). */
  type Description = map<string, PlistValue>

  /** The key under which a power source reports whether it is charging (kIOPSIsChargingKey). */
  const IsChargingKey: string := "Is Charging"

  /**
   * The charging flag of one source: the value of `description[kIOPSIsChargingKey] as? Bool`.
   * A missing key or a value that is not a Bool gives no flag.
   */
  function ChargingFlag(description: Description): (flag: Option<bool>)
    ensures flag.Some? <==>
              IsChargingKey in description && description[IsChargingKey].Boolean?
    ensures flag.Some? ==> flag.value == description[IsChargingKey].b
  {
    if IsChargingKey in description && description[IsChargingKey].Boolean? then
      Some(description[IsChargingKey].b)
    else
      None
  }

  /** Some power source reports that it is charging. */
  ghost predicate SomeSourceCharging(sources: seq<Description>)
  {
    exists i :: 0 <= i < |sources| && ChargingFlag(sources[i]) == Some(true)
  }
}
