/** The simulated solar panel and battery: power/power_threads.c. */
module PowerPlant {
  import opened Alerts
  import opened Latch

  datatype PowerData = PowerData(solarWatts: int, batteryPct: int, inEclipse: bool, faultActive: bool)

  const INITIAL_POWER := PowerData(110, 100, false, false)

  predicate EclipseWindow(elapsed: nat) {
    ECLIPSE_START <= elapsed <= ECLIPSE_END
  }

  // `pick` is the value that rand() returned.
  function SolarReading(elapsed: nat, pick: nat): int {
    if EclipseWindow(elapsed) then 0 else pick % 40 + 90
  }

  function BatteryReading(d: PowerData, pick: nat): int {
    if d.inEclipse then
      var b := d.batteryPct - (pick % 8 + 8);
      if b < 0 then 0 else b
    else
      var b := d.batteryPct + (pick % 4 + 3);
      if b > 100 then 100 else b
  }

  function BatteryBand(batt: int): Band {
    if batt <= BATTERY_CRITICAL then Severe
    else if batt <= BATTERY_WARNING then Marginal
    else Nominal
  }

  function BatteryAlert(severity: Severity, batt: int): Alert {
    match severity
    case CRITICAL => Alert(POWER, CRITICAL, batt, BATTERY_CRITICAL, BatteryCriticallyLow)
    case WARNING => Alert(POWER, WARNING, batt, BATTERY_WARNING, BatteryLow)
    case INFO => Alert(POWER, INFO, batt, BATTERY_WARNING, BatteryRecovered)
  }
}
