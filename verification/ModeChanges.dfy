/** How often the OBC can change the mode it broadcasts, and how far apart. */
module ModeChanges {
  import opened Alerts
  import opened Spacecraft
  import opened Telemetry
  import opened PlantRuns

  // The last-broadcast mode switches at action k: watchdog() begins to broadcast another mode.
  predicate SwitchesTo(states: seq<Sys>, acts: seq<Action>, k: int, safe: bool) {
    0 <= k < |acts| < |states| && states[k].obc.last != safe && states[k + 1].obc.last == safe
  }

  // The states behind the snapshot that the watchdog has in state k.
  function PowerBehind(states: seq<Sys>, acts: seq<Action>, k: nat): nat
    requires k <= |acts| < |states|
  {
    PowerAt(states, acts, SnapAt(states, acts, k))
  }

  function ThermalBehind(states: seq<Sys>, acts: seq<Action>, k: nat): nat
    requires k <= |acts| < |states|
  {
    ThermalAt(states, acts, SnapAt(states, acts, k))
  }

  lemma OnlyDecisionsSwitch(s: Sys, a: Action, after: Sys)
    requires Takes(s, a, after) && s.obc.last != after.obc.last
    ensures s.obc.pc.WDecide? && (if after.obc.last then EntersSafe(s.obc) else LeavesSafe(s.obc))
  {
  }

  // A switch to SAFE is decided on a battery sample of at most 10 or a CPU sample of at least 95 ...
  lemma WhyEnter(states: seq<Sys>, acts: seq<Action>, k: nat)
    requires Execution(states, acts) && SwitchesTo(states, acts, k, true)
    ensures || states[PowerBehind(states, acts, k)].power.d.batteryPct <= BATTERY_CRITICAL
            || states[ThermalBehind(states, acts, k)].thermal.d.cpu >= TEMP_CRITICAL
  {
    assert StepAt(states, acts, k);
    OnlyDecisionsSwitch(states[k], acts[k], states[k + 1]);
    SnapshotIsCoherent(states, acts, k);
  }

  // ... and a switch to NORMAL on samples above 20 and below 85, taken with the panel in the sun.
  lemma WhyLeave(states: seq<Sys>, acts: seq<Action>, k: nat)
    requires Execution(states, acts) && SwitchesTo(states, acts, k, false)
    ensures states[PowerBehind(states, acts, k)].power.d.batteryPct > BATTERY_WARNING
    ensures states[PowerBehind(states, acts, k)].power.d.solarWatts > 0
    ensures states[ThermalBehind(states, acts, k)].thermal.d.cpu < TEMP_WARNING
  {
    assert StepAt(states, acts, k);
    OnlyDecisionsSwitch(states[k], acts[k], states[k + 1]);
    SnapshotIsCoherent(states, acts, k);
  }

  lemma DecidingStep(o: Obc, b: Bus)
    requires o.pc == WDecide
    ensures var after := WatchdogNext(o, b);
            && (!o.safe && (o.batt <= 10 || o.temp >= 95) ==> after.last && after.pc == WKill(0, true))
            && (!o.safe && o.batt > 10 && o.temp < 95 ==> after == o.(pc := WAsleep))
            && (o.safe && o.batt > 20 && o.temp < 85 && o.solar > 0 ==> !after.last && after.pc == WKill(0, false))
            && (o.safe && (o.batt <= 20 || o.temp >= 85 || o.solar <= 0) ==> after == o.(pc := WAsleep))
  {
  }

  // And the other way round. When watchdog() decides, then on a bus that said NORMAL it begins to broadcast
  // SAFE if the battery sample is at most 10 or the CPU sample at least 95, and otherwise broadcasts
  // nothing; on a bus that said SAFE it begins to broadcast NORMAL if the battery sample is above 20,
  // the panel gave power and the CPU sample is below 85, and otherwise broadcasts nothing.
  lemma WhenItDecides(states: seq<Sys>, acts: seq<Action>, k: nat)
    requires Execution(states, acts) && k < |acts|
    requires acts[k].Step? && acts[k].t == Watchdog && states[k].obc.pc == WDecide
    ensures var power := states[PowerBehind(states, acts, k)].power.d;
            var cpu := states[ThermalBehind(states, acts, k)].thermal.d.cpu;
            var after := states[k + 1].obc;
            if !states[SnapAt(states, acts, k)].bus.safe then
              if power.batteryPct <= 10 || cpu >= 95 then after.last && after.pc == WKill(0, true)
              else after.last == states[k].obc.last && after.pc == WAsleep
            else
              if power.batteryPct > 20 && cpu < 85 && power.solarWatts > 0 then
                !after.last && after.pc == WKill(0, false)
              else after.last == states[k].obc.last && after.pc == WAsleep
  {
    assert StepAt(states, acts, k);
    SnapshotIsCoherent(states, acts, k);
    DecidingStep(states[k].obc, states[k].bus);
  }

  // ----- the watchdog runs on every second tick -----

  predicate Ticks(s: Sys, a: Action) {
    a.Step? && a.t == Watchdog && s.obc.pc == WAsleep
  }

  // Passes of main()'s loop, and calls of watchdog(), among the first n actions.
  function Passes(states: seq<Sys>, acts: seq<Action>, n: nat): nat
    requires n <= |acts| < |states|
  {
    if n == 0 then 0 else Passes(states, acts, n - 1) + (if Ticks(states[n - 1], acts[n - 1]) then 1 else 0)
  }

  function Calls(states: seq<Sys>, acts: seq<Action>, n: nat): nat
    requires n <= |acts| < |states|
  {
    if n == 0 then 0
    else
      Calls(states, acts, n - 1)
      + (if Ticks(states[n - 1], acts[n - 1]) && states[n].obc.pc == WSem then 1 else 0)
  }

  predicate Counted(o: Obc, passes: nat, calls: nat) {
    o.tick == passes && calls == passes / 2
  }

  lemma TickStep(s: Sys, a: Action, after: Sys, passes: nat, calls: nat)
    requires Takes(s, a, after) && Counted(s.obc, passes, calls)
    ensures var ticks := Ticks(s, a);
            Counted(after.obc, passes + (if ticks then 1 else 0),
                    calls + (if ticks && after.obc.pc == WSem then 1 else 0))
  {
  }

  // Of n passes of main()'s loop n / 2 call watchdog().
  lemma {:induction false} EverySecondPass(states: seq<Sys>, acts: seq<Action>, n: nat)
    requires Execution(states, acts) && n <= |acts|
    ensures Calls(states, acts, n) == Passes(states, acts, n) / 2 && states[n].obc.tick == Passes(states, acts, n)
  {
    if n == 0 {
    } else {
      EverySecondPass(states, acts, n - 1);
      assert StepAt(states, acts, n - 1);
      TickStep(states[n - 1], acts[n - 1], states[n], Passes(states, acts, n - 1), Calls(states, acts, n - 1));
    }
  }

  // ----- no chattering -----

  // Between the samples behind a switch to SAFE and those behind a later switch to NORMAL lie at
  // least two battery charging steps or at least three CPU readings.
  lemma NoChattering(states: seq<Sys>, acts: seq<Action>, k: nat, j: nat)
    requires Execution(states, acts) && k < j
    requires SwitchesTo(states, acts, k, true) && SwitchesTo(states, acts, j, false)
    ensures PowerBehind(states, acts, k) <= PowerBehind(states, acts, j)
    ensures ThermalBehind(states, acts, k) <= ThermalBehind(states, acts, j)
    ensures || Charges(states, acts, PowerBehind(states, acts, k), PowerBehind(states, acts, j)) >= 2
            || CpuReadings(states, acts, ThermalBehind(states, acts, k), ThermalBehind(states, acts, j)) >= 3
  {
    WhyEnter(states, acts, k);
    WhyLeave(states, acts, j);
    SnapshotsMoveForward(states, acts, k, j);
    PowerEvolves(states, acts, PowerBehind(states, acts, k), PowerBehind(states, acts, j));
    CpuEvolves(states, acts, ThermalBehind(states, acts, k), ThermalBehind(states, acts, j));
    PlantHolds(states, acts, ThermalBehind(states, acts, k));
    PlantHolds(states, acts, ThermalBehind(states, acts, j));
  }

  // ----- at most two emergencies -----

  // The battery cannot be found critical, then recovered, then critical again.
  lemma OneBatteryEmergency(states: seq<Sys>, acts: seq<Action>, a: nat, b: nat, c: nat)
    requires Execution(states, acts) && a <= b <= c <= |acts|
    requires states[a].power.d.batteryPct <= BATTERY_CRITICAL && states[b].power.d.batteryPct > BATTERY_WARNING
    ensures states[c].power.d.batteryPct > BATTERY_WARNING
  {
    PlantHolds(states, acts, a);
    PowerEvolves(states, acts, a, b);
    PowerEvolves(states, acts, b, c);
  }

  // Nor can the CPU.
  lemma OneThermalEmergency(states: seq<Sys>, acts: seq<Action>, a: nat, b: nat, c: nat)
    requires Execution(states, acts) && a <= b <= c <= |acts|
    requires states[a].thermal.d.cpu >= TEMP_CRITICAL && states[b].thermal.d.cpu < TEMP_WARNING
    ensures states[c].thermal.d.cpu < TEMP_WARNING
  {
    PlantHolds(states, acts, a);
    PlantHolds(states, acts, b);
    PlantHolds(states, acts, c);
    CpuEvolves(states, acts, a, b);
    CpuEvolves(states, acts, b, c);
  }

  // A switch to SAFE, a later switch to NORMAL, a later switch to SAFE: the second emergency is of the other kind.
  lemma EmergenciesDiffer(states: seq<Sys>, acts: seq<Action>, k: nat, j: nat, k': nat)
    requires Execution(states, acts) && k < j < k'
    requires SwitchesTo(states, acts, k, true) && SwitchesTo(states, acts, j, false)
    requires SwitchesTo(states, acts, k', true)
    ensures states[PowerBehind(states, acts, k)].power.d.batteryPct <= BATTERY_CRITICAL
            ==> states[PowerBehind(states, acts, k')].power.d.batteryPct > BATTERY_WARNING
                && states[ThermalBehind(states, acts, k')].thermal.d.cpu >= TEMP_CRITICAL
    ensures states[ThermalBehind(states, acts, k)].thermal.d.cpu >= TEMP_CRITICAL
            ==> states[ThermalBehind(states, acts, k')].thermal.d.cpu < TEMP_WARNING
                && states[PowerBehind(states, acts, k')].power.d.batteryPct <= BATTERY_CRITICAL
  {
    WhyLeave(states, acts, j);
    WhyEnter(states, acts, k');
    SnapshotsMoveForward(states, acts, k, j);
    SnapshotsMoveForward(states, acts, j, k');
    if states[PowerBehind(states, acts, k)].power.d.batteryPct <= BATTERY_CRITICAL {
      OneBatteryEmergency(states, acts, PowerBehind(states, acts, k), PowerBehind(states, acts, j),
          PowerBehind(states, acts, k'));
    }
    if states[ThermalBehind(states, acts, k)].thermal.d.cpu >= TEMP_CRITICAL {
      OneThermalEmergency(states, acts, ThermalBehind(states, acts, k), ThermalBehind(states, acts, j),
          ThermalBehind(states, acts, k'));
    }
  }

  // Between two switches to SAFE there is one to NORMAL.
  lemma {:induction false} SwitchBack(states: seq<Sys>, acts: seq<Action>, k: nat, n: nat) returns (j: nat)
    requires k < n <= |acts| < |states| && SwitchesTo(states, acts, k, true) && !states[n].obc.last
    ensures k < j < n && SwitchesTo(states, acts, j, false)
  {
    if states[n - 1].obc.last {
      j := n - 1;
    } else {
      j := SwitchBack(states, acts, k, n - 1);
    }
  }

  // The actions at which the mode switches to SAFE.
  function SafeSwitches(states: seq<Sys>, acts: seq<Action>, n: nat): (r: seq<nat>)
    requires n <= |acts| < |states|
    ensures forall i | 0 <= i < |r| :: r[i] < n && SwitchesTo(states, acts, r[i], true)
    ensures forall i, j | 0 <= i < j < |r| :: r[i] < r[j]
  {
    if n == 0 then []
    else
      var earlier := SafeSwitches(states, acts, n - 1);
      if SwitchesTo(states, acts, n - 1, true) then earlier + [n - 1] else earlier
  }

  // In no run does the broadcast mode switch to SAFE more than twice.
  lemma AtMostTwoEmergencies(states: seq<Sys>, acts: seq<Action>)
    requires Execution(states, acts)
    ensures |SafeSwitches(states, acts, |acts|)| <= 2
  {
    var r := SafeSwitches(states, acts, |acts|);
    if |r| >= 3 {
      var j := SwitchBack(states, acts, r[0], r[1]);
      var j' := SwitchBack(states, acts, r[1], r[2]);
      WhyEnter(states, acts, r[0]);
      EmergenciesDiffer(states, acts, r[0], j, r[1]);
      EmergenciesDiffer(states, acts, r[1], j', r[2]);
      EmergenciesDiffer(states, acts, r[0], j, r[2]);
      assert false;
    }
  }
}
