/** The two records the dashboard passes around: a sensor reading (a row of
    `sensor_readings`) and an alert (a row of `alerts`, or one generated in
    the browser). Parameters are named by the strings the source uses, so
    that an unknown parameter name can be expressed. */
module Records {
  import opened Wrappers

  const TEMPERATURE := "temperature"
  const PH := "ph"
  const DISSOLVED_OXYGEN := "dissolved_oxygen"
  const AMMONIA := "ammonia"
  const SALINITY := "salinity"

  /** The five measured parameters, in the order the sources list them. */
  const PARAMETERS: seq<string> := [TEMPERATURE, PH, DISSOLVED_OXYGEN, AMMONIA, SALINITY]

  /** One sensor reading. A missing value (`null` / `undefined`) is `None`;
      `timestamp` is in milliseconds since the epoch. */
  datatype Reading = Reading(
    timestamp: int,
    deviceId: Option<string>,
    temperature: Option<real>,
    ph: Option<real>,
    dissolvedOxygen: Option<real>,
    ammonia: Option<real>,
    salinity: Option<real>)

  /** `reading[parameter]`: the value stored under a parameter name; any
      other name reads as missing. */
  function ValueOf(r: Reading, parameter: string): (v: Option<real>)
    ensures parameter !in PARAMETERS ==> v.None?
  {
    if parameter == TEMPERATURE then r.temperature
    else if parameter == PH then r.ph
    else if parameter == DISSOLVED_OXYGEN then r.dissolvedOxygen
    else if parameter == AMMONIA then r.ammonia
    else if parameter == SALINITY then r.salinity
    else None
  }

  /** An alert record. `severity` is free text (`'high'`, `'medium'`,
      `'low'`, the older `'warning'`, or anything a database row holds). */
  datatype Alert = Alert(
    id: string,
    parameter: string,
    severity: Option<string>,
    message: string,
    createdAt: Option<string>,
    status: string)
}
