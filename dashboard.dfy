/** The sensor dashboard: a login gate, four telemetry readings and the one
    irrigation rule applied to the soil-moisture reading. The readings are
    parameters; the app draws them at random on every render. */
module SensorDashboard {

  /** One set of telemetry values: soil moisture (%), temperature (degrees C),
      water flow (L/min) and soil nutrient level. */
  datatype Readings = Readings(soilMoisture: real, temperature: real, waterFlow: real, nutrients: real)

  /** The ranges the app draws the synthetic readings from. */
  predicate InSensorRange(r: Readings)
  {
    10.0 <= r.soilMoisture <= 70.0 &&
    15.0 <= r.temperature <= 35.0 &&
    1.0 <= r.waterFlow <= 10.0 &&
    0.2 <= r.nutrients <= 0.9
  }

  /** Soil moisture (%) below which irrigation is switched on. */
  const IrrigationThreshold: real := 30.0

  datatype Irrigation = Activated | Standby

  /** The irrigation rule. */
  function IrrigationFor(soilMoisture: real): (i: Irrigation)
    ensures i == Activated <==> soilMoisture < IrrigationThreshold
  {
    if soilMoisture < IrrigationThreshold then Activated else Standby
  }

  /** What the dashboard shows: the login warning alone, or the readings with
      the irrigation decision. */
  datatype View = LoginWarning | Metrics(readings: Readings, irrigation: Irrigation)

  /** The dashboard handler on a session whose login flag is loggedIn. */
  function Show(loggedIn: bool, r: Readings): (v: View)
    ensures v.LoginWarning? <==> !loggedIn
    ensures v.Metrics? ==> v.readings == r
    ensures v.Metrics? ==> (v.irrigation == Activated <==> r.soilMoisture < IrrigationThreshold)
  {
    if !loggedIn then LoginWarning else Metrics(r, IrrigationFor(r.soilMoisture))
  }

  /** A logged-out session sees the same warning whatever the sensors say: no
      reading reaches the output. */
  lemma LoggedOutIgnoresReadings(r1: Readings, r2: Readings)
    ensures Show(false, r1) == Show(false, r2) == LoginWarning
  {
  }

  /** The rule is monotone: a drier soil never gets less irrigation. */
  lemma IrrigationMonotone(drier: real, wetter: real)
    requires drier <= wetter
    ensures IrrigationFor(wetter) == Activated ==> IrrigationFor(drier) == Activated
  {
  }

  /** The threshold lies strictly inside the sensor range, so both decisions
      occur among the readings the app can produce. */
  lemma BothDecisionsInRange()
    ensures exists r :: InSensorRange(r) && Show(true, r).irrigation == Activated
    ensures exists r :: InSensorRange(r) && Show(true, r).irrigation == Standby
  {
    var dry := Readings(10.0, 15.0, 1.0, 0.2);
    var wet := Readings(70.0, 15.0, 1.0, 0.2);
    assert InSensorRange(dry) && Show(true, dry).irrigation == Activated;
    assert InSensorRange(wet) && Show(true, wet).irrigation == Standby;
  }
}
