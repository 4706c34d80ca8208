/** The simulated temperatures and the heater: thermal/thermal_threads.c. */
module ThermalPlant {
  import opened Alerts
  import opened Latch

  datatype ThermalData = ThermalData(cpu: int, battery: int, antenna: int, body: int,
                                     heaterOn: bool, faultActive: bool)

  const INITIAL_THERMAL := ThermalData(30, 20, 25, 22, false, false)

  function CpuReading(elapsed: nat, previous: int, pick: nat): int {
    if elapsed == THERMAL_SPIKE then 110
    else if THERMAL_SPIKE < elapsed < THERMAL_SPIKE + 8 then
      (if previous - 5 < 35 then 35 else previous - 5)
    else pick % 18 + 28
  }

  function CpuBand(cpu: int): Band {
    if cpu >= TEMP_CRITICAL then Severe
    else if cpu >= TEMP_WARNING then Marginal
    else Nominal
  }

  function CpuAlert(severity: Severity, cpu: int): Alert {
    match severity
    case CRITICAL => Alert(THERMAL, CRITICAL, cpu, TEMP_CRITICAL, CpuOverheat)
    case WARNING => Alert(THERMAL, WARNING, cpu, TEMP_WARNING, CpuElevated)
    case INFO => Alert(THERMAL, INFO, cpu, TEMP_WARNING, CpuNormal)
  }

  function Min(a: int, b: int): int {
    if b < a then b else a
  }

  function ColdestZone(d: ThermalData): int {
    Min(Min(d.battery, d.antenna), d.body)
  }

  // The heater after one look at the zones, and the warning raised when it is switched on.
  function HeaterVerdict(d: ThermalData): (bool, Option<Alert>) {
    var coldest := ColdestZone(d);
    if coldest <= TEMP_FREEZE && !d.heaterOn then
      (true, Some(Alert(THERMAL, WARNING, coldest, TEMP_FREEZE, NearFreezing)))
    else if coldest > 10 && d.heaterOn then (false, None)
    else (d.heaterOn, None)
  }
}
