/**
 How the simulated plant evolves in every run of the whole system, whatever rand() returns and
 however the threads interleave: the battery falls only during the eclipse, and the CPU spikes once.
 */
module PlantRuns {
  import opened Alerts
  import opened PowerPlant
  import opened Spacecraft

  // ----- power -----

  // The solar step whose eclipse flag, or whose panel output, the power data shows.
  function FlagClock(p: Power): int {
    if p.solar.SolarLock? || p.solar.SolarWatts? || p.solar.SolarFlag? then p.elapsed - 1 else p.elapsed
  }

  function WattsClock(p: Power): int {
    if p.solar.SolarLock? || p.solar.SolarWatts? then p.elapsed - 1 else p.elapsed
  }

  predicate PowerInv(p: Power) {
    && FlagClock(p) >= 0
    && p.d.inEclipse == EclipseWindow(FlagClock(p))
    && 0 <= p.d.batteryPct <= 100
    && (FlagClock(p) < ECLIPSE_START ==> p.d.batteryPct == 100)
    && (if EclipseWindow(WattsClock(p)) then p.d.solarWatts == 0 else 90 <= p.d.solarWatts < 130)
  }

  datatype Stage = Before | During | After

  function StageOf(p: Power): Stage {
    if FlagClock(p) < ECLIPSE_START then Before else if FlagClock(p) <= ECLIPSE_END then During else After
  }

  // What can have happened between p and a later state p'.
  predicate PowerMayBecome(p: Power, p': Power) {
    && FlagClock(p) <= FlagClock(p')
    && (StageOf(p) == During && StageOf(p') == During ==> p'.d.batteryPct <= p.d.batteryPct)
    && (StageOf(p) == After ==> p'.d.batteryPct >= p.d.batteryPct)
  }

  lemma PowerInvNext(p: Power, t: Tid, pick: nat, safe: bool)
    requires PowerInv(p)
    ensures PowerInv(PowerNext(p, t, pick, safe)) && PowerMayBecome(p, PowerNext(p, t, pick, safe))
  {
  }

  // ----- thermal -----

  // The sensor step whose CPU temperature the thermal data shows, and the last one judged.
  function CpuClock(p: Thermal): int {
    if p.sensor.SenLock? || p.sensor.SenBattery? || p.sensor.SenAntenna? || p.sensor.SenBody? || p.sensor.SenCpu?
    then p.elapsed - 1 else p.elapsed
  }

  function JudgedClock(p: Thermal): int {
    if p.sensor.SenJudge? then p.elapsed - 1 else CpuClock(p)
  }

  predicate CpuTrajectory(clock: int, cpu: int) {
    if THERMAL_SPIKE <= clock < THERMAL_SPIKE + 8 then cpu == 110 - 5 * (clock - THERMAL_SPIKE) else 28 <= cpu <= 45
  }

  predicate ThermalInv(p: Thermal) {
    && JudgedClock(p) >= 0
    && CpuTrajectory(CpuClock(p), p.d.cpu)
    && 15 <= p.d.battery < 30 && 20 <= p.d.antenna < 40 && 18 <= p.d.body < 33
    && !p.d.heaterOn && !p.heater.HeatSendHeld?
    && (p.d.faultActive <==> THERMAL_SPIKE <= JudgedClock(p) < THERMAL_SPIKE + 6)
  }

  lemma ThermalInvNext(p: Thermal, t: Tid, pick: nat)
    requires ThermalInv(p)
    ensures ThermalInv(ThermalNext(p, t, pick))
    ensures CpuClock(ThermalNext(p, t, pick)) == CpuClock(p) + (if t == Sensor && p.sensor.SenCpu? then 1 else 0)
  {
  }

  // ----- whole runs -----

  lemma PlantHolds(states: seq<Sys>, acts: seq<Action>, n: nat)
    requires Execution(states, acts) && n <= |acts|
    ensures PowerInv(states[n].power) && ThermalInv(states[n].thermal)
  {
    for k := 0 to n
      invariant PowerInv(states[k].power) && ThermalInv(states[k].thermal)
    {
      assert StepAt(states, acts, k);
      if acts[k].Step? {
        PowerInvNext(states[k].power, acts[k].t, acts[k].pick, states[k].inbox[POWER_CHILD].safe);
        ThermalInvNext(states[k].thermal, acts[k].t, acts[k].pick);
      }
    }
  }

  function ChargesBy(s: Sys, a: Action): nat {
    if a.Step? && a.t == Battery && s.power.battery.BatLevel? && !s.power.d.inEclipse then 1 else 0
  }

  // Battery steps that charged, among the actions from m to n.
  function Charges(states: seq<Sys>, acts: seq<Action>, m: nat, n: nat): nat
    requires m <= n <= |acts| < |states|
  {
    if m == n then 0 else Charges(states, acts, m, n - 1) + ChargesBy(states[n - 1], acts[n - 1])
  }

  // CPU readings taken by the sensor thread among the actions from m to n.
  function CpuReadings(states: seq<Sys>, acts: seq<Action>, m: nat, n: nat): nat
    requires m <= n <= |acts| < |states|
  {
    if m == n then 0
    else
      CpuReadings(states, acts, m, n - 1)
      + (if acts[n - 1].Step? && acts[n - 1].t == Sensor && states[n - 1].thermal.sensor.SenCpu? then 1 else 0)
  }

  lemma PowerStep(s: Sys, a: Action, after: Sys)
    requires Takes(s, a, after) && PowerInv(s.power)
    ensures PowerMayBecome(s.power, after.power)
    ensures after.power.d.batteryPct <= s.power.d.batteryPct + 6 * ChargesBy(s, a)
  {
    if a.Step? {
      PowerInvNext(s.power, a.t, a.pick, s.inbox[POWER_CHILD].safe);
    }
  }

  lemma PowerMayBecomeInTwo(p: Power, q: Power, r: Power)
    requires PowerMayBecome(p, q) && PowerMayBecome(q, r)
    ensures PowerMayBecome(p, r)
  {
  }

  // Power between two instants of a run.
  ghost predicate PowerEvolved(states: seq<Sys>, acts: seq<Action>, m: nat, n: nat)
    requires m <= n <= |acts| < |states|
  {
    && PowerMayBecome(states[m].power, states[n].power)
    && states[n].power.d.batteryPct <= states[m].power.d.batteryPct + 6 * Charges(states, acts, m, n)
  }

  lemma PowerEvolvedAt(states: seq<Sys>, acts: seq<Action>, m: nat, n: nat)
    requires Execution(states, acts) && m <= n < |acts| && PowerEvolved(states, acts, m, n)
    ensures PowerEvolved(states, acts, m, n + 1)
  {
    PlantHolds(states, acts, n);
    assert StepAt(states, acts, n);
    PowerStep(states[n], acts[n], states[n + 1]);
    PowerMayBecomeInTwo(states[m].power, states[n].power, states[n + 1].power);
  }

  lemma PowerEvolves(states: seq<Sys>, acts: seq<Action>, m: nat, n: nat)
    requires Execution(states, acts) && m <= n <= |acts|
    ensures PowerEvolved(states, acts, m, n)
  {
    assert PowerMayBecome(states[m].power, states[m].power);
    for k := m to n
      invariant PowerEvolved(states, acts, m, k)
    {
      PowerEvolvedAt(states, acts, m, k);
    }
  }

  lemma CpuStep(s: Sys, a: Action, after: Sys)
    requires Takes(s, a, after) && ThermalInv(s.thermal)
    ensures CpuClock(after.thermal)
            == CpuClock(s.thermal) + (if a.Step? && a.t == Sensor && s.thermal.sensor.SenCpu? then 1 else 0)
  {
    if a.Step? {
      ThermalInvNext(s.thermal, a.t, a.pick);
    }
  }

  ghost predicate CpuEvolved(states: seq<Sys>, acts: seq<Action>, m: nat, n: nat)
    requires m <= n <= |acts| < |states|
  {
    CpuClock(states[n].thermal) == CpuClock(states[m].thermal) + CpuReadings(states, acts, m, n)
  }

  lemma CpuEvolvedAt(states: seq<Sys>, acts: seq<Action>, m: nat, n: nat)
    requires Execution(states, acts) && m <= n < |acts| && CpuEvolved(states, acts, m, n)
    ensures CpuEvolved(states, acts, m, n + 1)
  {
    PlantHolds(states, acts, n);
    assert StepAt(states, acts, n);
    CpuStep(states[n], acts[n], states[n + 1]);
  }

  lemma {:induction false} CpuEvolves(states: seq<Sys>, acts: seq<Action>, m: nat, n: nat)
    requires Execution(states, acts) && m <= n <= |acts|
    ensures CpuEvolved(states, acts, m, n)
  {
    for k := m to n
      invariant CpuEvolved(states, acts, m, k)
    {
      CpuEvolvedAt(states, acts, m, k);
    }
  }

  // ----- the sensor's alerts -----

  function SensorSends(s: Sys, a: Action): seq<Alert> {
    if a.Step? && a.t == Sensor && Sends(s, Sensor).Some? then [Sends(s, Sensor).value] else []
  }

  function SensorAlerts(states: seq<Sys>, acts: seq<Action>, n: nat): seq<Alert>
    requires n <= |acts| < |states|
  {
    if n == 0 then [] else SensorAlerts(states, acts, n - 1) + SensorSends(states[n - 1], acts[n - 1])
  }

  function SpikeAlerts(judged: int): seq<Alert> {
    (if judged >= THERMAL_SPIKE then [Alert(THERMAL, CRITICAL, 110, TEMP_CRITICAL, CpuOverheat)] else [])
    + (if judged >= THERMAL_SPIKE + 6 then [Alert(THERMAL, INFO, 80, TEMP_WARNING, CpuNormal)] else [])
  }

  // The alert that the sensor thread has decided on and not yet sent.
  function Unsent(pc: SensorPc): seq<Alert> {
    if pc.SenUnlockSend? || pc.SenSend? then [pc.alert] else []
  }

  lemma SensorJudges(p: Thermal, pick: nat)
    requires ThermalInv(p)
    ensures var p' := SensorNext(p, pick);
            SpikeAlerts(JudgedClock(p')) == SpikeAlerts(JudgedClock(p))
                + (if p.sensor.SenJudge? then Unsent(p'.sensor) else [])
    ensures !p.sensor.SenJudge? ==>
              Unsent(SensorNext(p, pick).sensor) == if p.sensor.SenSend? then [] else Unsent(p.sensor)
    ensures p.sensor.SenJudge? ==> Unsent(p.sensor) == []
  {
  }

  // Sent and unsent alerts together are what the judged readings call for.
  predicate SensorAccounts(sent: seq<Alert>, p: Thermal) {
    sent + Unsent(p.sensor) == SpikeAlerts(JudgedClock(p))
  }

  lemma SensorStep(s: Sys, a: Action, after: Sys, sent: seq<Alert>)
    requires Takes(s, a, after) && ThermalInv(s.thermal) && SensorAccounts(sent, s.thermal)
    ensures SensorAccounts(sent + SensorSends(s, a), after.thermal)
  {
    if a.Step? && a.t == Sensor {
      SensorJudges(s.thermal, a.pick);
    } else {
      assert after.thermal.sensor == s.thermal.sensor && after.thermal.elapsed == s.thermal.elapsed;
    }
  }

  lemma SensorAccountsAt(states: seq<Sys>, acts: seq<Action>, n: nat)
    requires Path(states, acts) && n < |acts| && ThermalInv(states[n].thermal)
    requires SensorAccounts(SensorAlerts(states, acts, n), states[n].thermal)
    ensures SensorAccounts(SensorAlerts(states, acts, n + 1), states[n + 1].thermal)
  {
    assert StepAt(states, acts, n);
    SensorStep(states[n], acts[n], states[n + 1], SensorAlerts(states, acts, n));
  }

  lemma NoAlertsYet()
    ensures SensorAccounts([], Init().thermal)
  {
  }

  lemma SensorAccountsHold(states: seq<Sys>, acts: seq<Action>, n: nat)
    requires Execution(states, acts) && n <= |acts|
    ensures SensorAccounts(SensorAlerts(states, acts, n), states[n].thermal)
  {
    NoAlertsYet();
    for k := 0 to n
      invariant SensorAccounts(SensorAlerts(states, acts, k), states[k].thermal)
    {
      PlantHolds(states, acts, k);
      SensorAccountsAt(states, acts, k);
    }
  }

  // In every run the sensor thread sends at most two alerts: CRITICAL at 110 degrees for its 30th
  // reading, then INFO at 80 degrees for its 36th. It never sends a WARNING.
  lemma SpikeIsReportedOnce(states: seq<Sys>, acts: seq<Action>, n: nat)
    requires Execution(states, acts) && n <= |acts|
    ensures SensorAlerts(states, acts, n) + Unsent(states[n].thermal.sensor)
        == SpikeAlerts(JudgedClock(states[n].thermal))
  {
    SensorAccountsHold(states, acts, n);
  }
}
