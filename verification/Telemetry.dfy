/**
 Coherent telemetry: what the bus shows, and what the watchdog reads off it, are values that a
 subsystem held together at one earlier instant, and later samples come from later instants.
 */
module Telemetry {
  import opened Alerts
  import opened PowerPlant
  import opened ThermalPlant
  import opened Spacecraft
  import opened Locks

  // ----- the instants behind the samples; an instant is an index into the run -----

  predicate StartsPowerCopy(s: Sys, a: Action) {
    a.Step? && a.t == PowerBus && s.power.bus.PbSolar?
  }

  predicate StartsThermalCopy(s: Sys, a: Action) {
    a.Step? && a.t == ThermalBus && s.thermal.bus.TbCpu?
  }

  predicate StartsReading(s: Sys, a: Action) {
    a.Step? && a.t == Watchdog && s.obc.pc.WBattery?
  }

  // When the power values now on the bus were held by the power process.
  function PowerAt(states: seq<Sys>, acts: seq<Action>, n: nat): (k: nat)
    requires n <= |acts| < |states|
    ensures k <= n
    ensures k == 0 || states[k].power.bus.PbSolar?
  {
    if n == 0 then 0
    else if StartsPowerCopy(states[n - 1], acts[n - 1]) then n - 1
    else PowerAt(states, acts, n - 1)
  }

  function ThermalAt(states: seq<Sys>, acts: seq<Action>, n: nat): (k: nat)
    requires n <= |acts| < |states|
    ensures k <= n
    ensures k == 0 || states[k].thermal.bus.TbCpu?
  {
    if n == 0 then 0
    else if StartsThermalCopy(states[n - 1], acts[n - 1]) then n - 1
    else ThermalAt(states, acts, n - 1)
  }

  // When the watchdog began to read the snapshot it has now.
  function SnapAt(states: seq<Sys>, acts: seq<Action>, n: nat): (k: nat)
    requires n <= |acts| < |states|
    ensures k <= n
    ensures k == 0 || states[k].obc.pc.WBattery?
  {
    if n == 0 then 0
    else if StartsReading(states[n - 1], acts[n - 1]) then n - 1
    else SnapAt(states, acts, n - 1)
  }

  // ----- one step -----

  // The bus shows `held`, as far as the copy in progress has come.
  predicate ShowsPower(s: Sys, held: PowerData) {
    && s.bus.solar == held.solarWatts
    && (if s.power.bus.PbBattery? then s.power.d.batteryPct == held.batteryPct else s.bus.battery == held.batteryPct)
  }

  predicate ShowsThermal(s: Sys, held: ThermalData) {
    && s.bus.cpu == held.cpu
    && (s.thermal.bus.TbBattery? || s.thermal.bus.TbAntenna? || s.thermal.bus.TbBody? ==>
          s.thermal.d.(heaterOn := held.heaterOn, faultActive := held.faultActive) == held)
    && (!s.thermal.bus.TbBattery? ==> s.bus.zoneBattery == held.battery)
    && (!s.thermal.bus.TbBattery? && !s.thermal.bus.TbAntenna? ==> s.bus.zoneAntenna == held.antenna)
    && (!s.thermal.bus.TbBattery? && !s.thermal.bus.TbAntenna? && !s.thermal.bus.TbBody? ==>
        s.bus.zoneBody == held.body)
  }

  lemma OthersLeavePowerCopy(s: Sys, a: Action, after: Sys)
    requires PowerLock(s.power) && Takes(s, a, after) && !(a.Step? && a.t == PowerBus)
    ensures after.power.bus == s.power.bus && after.bus.solar == s.bus.solar && after.bus.battery == s.bus.battery
    ensures s.power.bus.PbBattery? ==> after.power.d == s.power.d
  {
  }

  lemma PowerCopyStep(s: Sys, a: Action, after: Sys, held: PowerData)
    requires PowerLock(s.power) && Takes(s, a, after) && ShowsPower(s, held)
    ensures ShowsPower(after, if StartsPowerCopy(s, a) then s.power.d else held)
  {
    if a.Step? && a.t == PowerBus {
      assert after.power == PowerBusNext(s.power, s.inbox[POWER_CHILD].safe);
    } else {
      OthersLeavePowerCopy(s, a, after);
    }
  }

  lemma OthersLeaveThermalCopy(s: Sys, a: Action, after: Sys)
    requires ThermalLock(s.thermal) && Takes(s, a, after) && !(a.Step? && a.t == ThermalBus)
    ensures after.thermal.bus == s.thermal.bus
    ensures s.bus == after.bus.(solar := s.bus.solar, battery := s.bus.battery, safe := s.bus.safe,
        signal := s.bus.signal)
    ensures s.thermal.bus.TbBattery? || s.thermal.bus.TbAntenna? || s.thermal.bus.TbBody? ==>
        after.thermal.d == s.thermal.d
  {
  }

  lemma ThermalCopyStep(s: Sys, a: Action, after: Sys, held: ThermalData)
    requires ThermalLock(s.thermal) && Takes(s, a, after) && ShowsThermal(s, held)
    ensures ShowsThermal(after, if StartsThermalCopy(s, a) then s.thermal.d else held)
  {
    if a.Step? && a.t == ThermalBus {
      assert after.thermal == ThermalBusNext(s.thermal);
    } else {
      OthersLeaveThermalCopy(s, a, after);
    }
  }

  // The watchdog's locals hold what the bus showed in state `seen`, as far as its reading has come.
  predicate Sees(s: Sys, seen: Bus) {
    SeesIn(s.obc, s.bus, seen)
  }

  predicate SeesIn(o: Obc, b: Bus, seen: Bus) {
    && (o.pc.WTemp? || o.pc.WSolar? || o.pc.WSafe? || o.pc.WPost? ==> b == seen && o.batt == seen.battery)
    && (o.pc.WSolar? || o.pc.WSafe? || o.pc.WPost? ==> o.temp == seen.cpu)
    && (o.pc.WSafe? || o.pc.WPost? ==> o.solar == seen.solar)
    && (o.pc.WPost? ==> o.safe == seen.safe)
    && (HasSnapshot(o) ==> o.batt == seen.battery && o.temp == seen.cpu && o.solar == seen.solar && o.safe == seen.safe)
  }

  // The watchdog is past its reads, up to the end of that call of watchdog().
  predicate HasSnapshot(o: Obc) {
    o.pc.WPost? || o.pc.WDecide? || o.pc.WKill? || o.pc.WSem2? || o.pc.WWrite? || o.pc.WPost2?
  }

  lemma BusHeldStill(s: Sys, a: Action, after: Sys)
    requires SemLock(s) && Takes(s, a, after)
    requires s.obc.pc.WTemp? || s.obc.pc.WSolar? || s.obc.pc.WSafe? || s.obc.pc.WPost?
    ensures after.bus == s.bus
  {
    assert HoldsSem(s, Watchdog);
    assert s.sem != Some(PowerBus) && s.sem != Some(ThermalBus) && s.sem != Some(Downlink);
  }

  lemma WatchdogReadsOn(o: Obc, b: Bus, seen: Bus)
    requires SeesIn(o, b, seen)
    ensures SeesIn(WatchdogNext(o, b), if o.pc.WWrite? then b.(safe := o.pc.safe) else b,
        if o.pc.WBattery? then b else seen)
  {
  }

  lemma OthersLeaveReading(s: Sys, a: Action, after: Sys)
    requires Takes(s, a, after) && !(a.Step? && a.t == Watchdog)
    ensures after.obc == s.obc
  {
  }

  lemma ReadingStep(s: Sys, a: Action, after: Sys, seen: Bus)
    requires SemLock(s) && Takes(s, a, after) && Sees(s, seen)
    ensures Sees(after, if StartsReading(s, a) then s.bus else seen)
  {
    if a.Step? && a.t == Watchdog {
      WatchdogReadsOn(s.obc, s.bus, seen);
    } else {
      OthersLeaveReading(s, a, after);
      if s.obc.pc.WTemp? || s.obc.pc.WSolar? || s.obc.pc.WSafe? || s.obc.pc.WPost? {
        BusHeldStill(s, a, after);
      }
    }
  }

  // ----- whole runs -----

  // Whenever no bus writer is in the middle of its copy, the battery and solar readings on the bus
  // are a pair that the power process held at one earlier instant, with its mutex in the writer's hands.
  lemma PowerTelemetryIsCoherent(states: seq<Sys>, acts: seq<Action>, n: nat)
    requires Execution(states, acts) && n <= |acts|
    ensures ShowsPower(states[n], states[PowerAt(states, acts, n)].power.d)
    ensures var k := PowerAt(states, acts, n);
            && (k > 0 ==> states[k].power.mutex == Some(PowerBus))
            && (states[n].sem != Some(PowerBus) ==>
                  (states[n].bus.battery, states[n].bus.solar)
                      == (states[k].power.d.batteryPct, states[k].power.d.solarWatts))
  {
    for k := 0 to n
      invariant ShowsPower(states[k], states[PowerAt(states, acts, k)].power.d)
    {
      assert StepAt(states, acts, k);
      LocksHold(states, acts, k);
      PowerCopyStep(states[k], acts[k], states[k + 1], states[PowerAt(states, acts, k)].power.d);
    }
    LocksHold(states, acts, PowerAt(states, acts, n));
    LocksHold(states, acts, n);
    assert states[n].sem == Some(PowerBus) <==> HoldsSem(states[n], PowerBus);
  }

  lemma ThermalShown(states: seq<Sys>, acts: seq<Action>, n: nat)
    requires Execution(states, acts) && n <= |acts|
    ensures ShowsThermal(states[n], states[ThermalAt(states, acts, n)].thermal.d)
  {
    for k := 0 to n
      invariant ShowsThermal(states[k], states[ThermalAt(states, acts, k)].thermal.d)
    {
      assert StepAt(states, acts, k);
      LocksHold(states, acts, k);
      ThermalCopyStep(states[k], acts[k], states[k + 1], states[ThermalAt(states, acts, k)].thermal.d);
    }
  }

  // The same for the four temperatures.
  lemma ThermalTelemetryIsCoherent(states: seq<Sys>, acts: seq<Action>, n: nat)
    requires Execution(states, acts) && n <= |acts|
    ensures ShowsThermal(states[n], states[ThermalAt(states, acts, n)].thermal.d)
    ensures var k := ThermalAt(states, acts, n);
            var b, d := states[n].bus, states[k].thermal.d;
            && (k > 0 ==> states[k].thermal.mutex == Some(ThermalBus))
            && (states[n].sem != Some(ThermalBus) ==>
                  (b.cpu, b.zoneBattery, b.zoneAntenna, b.zoneBody) == (d.cpu, d.battery, d.antenna, d.body))
  {
    ThermalShown(states, acts, n);
    LocksHold(states, acts, ThermalAt(states, acts, n));
    LocksHold(states, acts, n);
    assert states[n].sem == Some(ThermalBus) <==> HoldsSem(states[n], ThermalBus);
  }

  lemma SeesAt(states: seq<Sys>, acts: seq<Action>, n: nat)
    requires Path(states, acts) && n < |acts| && SemLock(states[n])
    requires Sees(states[n], states[SnapAt(states, acts, n)].bus)
    ensures Sees(states[n + 1], states[SnapAt(states, acts, n + 1)].bus)
  {
    assert StepAt(states, acts, n);
    ReadingStep(states[n], acts[n], states[n + 1], states[SnapAt(states, acts, n)].bus);
  }

  lemma SnapshotSeen(states: seq<Sys>, acts: seq<Action>, n: nat)
    requires Execution(states, acts) && n <= |acts|
    ensures Sees(states[n], states[SnapAt(states, acts, n)].bus)
  {
    for k := 0 to n
      invariant Sees(states[k], states[SnapAt(states, acts, k)].bus)
    {
      LocksHold(states, acts, k);
      SeesAt(states, acts, k);
    }
  }

  // While the watchdog reads, the bus writers are outside their copies.
  lemma WritersKeepOut(s: Sys)
    requires LockInv(s) && s.obc.pc.WBattery?
    ensures s.sem != Some(PowerBus) && s.sem != Some(ThermalBus)
  {
    assert HoldsSem(s, Watchdog);
  }

  // The watchdog's snapshot shows these values.
  predicate Snapshot(o: Obc, power: PowerData, thermal: ThermalData) {
    (o.batt, o.solar, o.temp) == (power.batteryPct, power.solarWatts, thermal.cpu)
  }

  // What the watchdog decides on is the bus as it stood at one instant, and so values that the
  // power and the thermal process each held together.
  lemma SnapshotIsCoherent(states: seq<Sys>, acts: seq<Action>, n: nat)
    requires Execution(states, acts) && n <= |acts| && HasSnapshot(states[n].obc)
    ensures var m := SnapAt(states, acts, n);
            var power := states[PowerAt(states, acts, m)].power.d;
            var thermal := states[ThermalAt(states, acts, m)].thermal.d;
            Snapshot(states[n].obc, power, thermal) && states[n].obc.safe == states[m].bus.safe
  {
    SnapshotSeen(states, acts, n);
    var m := SnapAt(states, acts, n);
    LocksHold(states, acts, m);
    if m > 0 {
      WritersKeepOut(states[m]);
    }
    PowerTelemetryIsCoherent(states, acts, m);
    ThermalTelemetryIsCoherent(states, acts, m);
  }

  // By their definition, later samples are never of an earlier instant.
  lemma {:induction false} SamplesMoveForward(states: seq<Sys>, acts: seq<Action>, n: nat, n': nat)
    requires n <= n' <= |acts| < |states|
    ensures PowerAt(states, acts, n) <= PowerAt(states, acts, n')
    ensures ThermalAt(states, acts, n) <= ThermalAt(states, acts, n')
    ensures SnapAt(states, acts, n) <= SnapAt(states, acts, n')
  {
    if n == n' {
    } else {
      SamplesMoveForward(states, acts, n, n' - 1);
    }
  }

  lemma SnapshotsMoveForward(states: seq<Sys>, acts: seq<Action>, n: nat, n': nat)
    requires n <= n' <= |acts| < |states|
    ensures PowerAt(states, acts, SnapAt(states, acts, n)) <= PowerAt(states, acts, SnapAt(states, acts, n'))
    ensures ThermalAt(states, acts, SnapAt(states, acts, n)) <= ThermalAt(states, acts, SnapAt(states, acts, n'))
  {
    SamplesMoveForward(states, acts, n, n');
    SamplesMoveForward(states, acts, SnapAt(states, acts, n), SnapAt(states, acts, n'));
  }

  predicate Steady(s: Sys) {
    s.sem != Some(PowerBus) && s.sem != Some(ThermalBus)
  }

  // The bus shows what the power process held at instant p and the thermal process at instant t.
  predicate ShowsHeld(b: Bus, power: PowerData, thermal: ThermalData) {
    && (b.battery, b.solar) == (power.batteryPct, power.solarWatts)
    && (b.cpu, b.zoneBattery, b.zoneAntenna, b.zoneBody)
        == (thermal.cpu, thermal.battery, thermal.antenna, thermal.body)
  }

  // The bus never goes back in time: two looks at it, with no bus writer in the middle of its copy, show
  // values held at instants p, t at the first and p', t' at the second, with p <= p' and t <= t'.
  lemma BusMovesForward(states: seq<Sys>, acts: seq<Action>, n: nat, n': nat)
    returns (p: nat, t: nat, p': nat, t': nat)
    requires Execution(states, acts) && n <= n' <= |acts| && Steady(states[n]) && Steady(states[n'])
    ensures p <= n && t <= n && p <= p' <= n' && t <= t' <= n'
    ensures ShowsHeld(states[n].bus, states[p].power.d, states[t].thermal.d)
    ensures ShowsHeld(states[n'].bus, states[p'].power.d, states[t'].thermal.d)
  {
    p, t := PowerAt(states, acts, n), ThermalAt(states, acts, n);
    p', t' := PowerAt(states, acts, n'), ThermalAt(states, acts, n');
    SamplesMoveForward(states, acts, n, n');
    PowerTelemetryIsCoherent(states, acts, n);
    ThermalTelemetryIsCoherent(states, acts, n);
    PowerTelemetryIsCoherent(states, acts, n');
    ThermalTelemetryIsCoherent(states, acts, n');
  }

  // Nor do the watchdog's decisions: the snapshots behind two of them are such values too.
  lemma SnapshotsGoForward(states: seq<Sys>, acts: seq<Action>, n: nat, n': nat)
    returns (p: nat, t: nat, p': nat, t': nat)
    requires Execution(states, acts) && n <= n' <= |acts| && HasSnapshot(states[n].obc) && HasSnapshot(states[n'].obc)
    ensures p <= n && t <= n && p <= p' <= n' && t <= t' <= n'
    ensures Snapshot(states[n].obc, states[p].power.d, states[t].thermal.d)
    ensures Snapshot(states[n'].obc, states[p'].power.d, states[t'].thermal.d)
  {
    var m, m' := SnapAt(states, acts, n), SnapAt(states, acts, n');
    p, t := PowerAt(states, acts, m), ThermalAt(states, acts, m);
    p', t' := PowerAt(states, acts, m'), ThermalAt(states, acts, m');
    SnapshotsMoveForward(states, acts, n, n');
    SnapshotIsCoherent(states, acts, n);
    SnapshotIsCoherent(states, acts, n');
  }
}
