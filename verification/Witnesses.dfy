/** Runs built step by step: what the sensor, the thermal bus writer and the watchdog do when they run alone. */
module Witnesses {
  import opened Alerts
  import opened ThermalPlant
  import opened Spacecraft
  import opened SafeMode

  ghost predicate EndsIn(states: seq<Sys>, acts: seq<Action>, s: Sys, timely: bool) {
    Execution(states, acts) && (timely ==> Timely(states, acts)) && states[|acts|] == s
  }

  // A run, and a timely one if `timely`, leads to s.
  ghost predicate Reachable(s: Sys, timely: bool) {
    exists states, acts :: EndsIn(states, acts, s, timely)
  }

  lemma InitIsReachable(timely: bool)
    ensures Reachable(Init(), timely)
  {
    assert EndsIn([Init()], [], Init(), timely);
  }

  lemma Go(s: Sys, a: Action, timely: bool)
    requires Reachable(s, timely) && Enabled(s, a)
    requires timely && StartsBroadcast(s, a) ==> forall c | 0 <= c < 4 :: NothingPending(s.inbox[c])
    ensures Reachable(Next(s, a), timely)
  {
    var states, acts :| EndsIn(states, acts, s, timely);
    var after := Next(s, a);
    var states', acts' := states + [after], acts + [a];
    forall k | 0 <= k < |acts'| ensures StepAt(states', acts', k) {
      if k < |acts| {
        assert StepAt(states, acts, k);
      }
    }
    if timely {
      forall k, c | 0 <= k < |acts'| && 0 <= c < 4 && StartsBroadcast(states'[k], acts'[k])
        ensures NothingPending(states'[k].inbox[c])
      {
        if k < |acts| {
          assert states'[k] == states[k] && acts'[k] == acts[k];
        }
      }
    }
    assert EndsIn(states', acts', after, timely);
  }

  // ----- the sensor thread -----

  lemma SensorGoes(s: Sys, timely: bool)
    requires Reachable(s, timely) && !s.thermal.sensor.SenSend? && (s.thermal.sensor.SenLock? ==> s.thermal.mutex.None?)
    ensures Reachable(s.(thermal := SensorNext(s.thermal, 0)), timely)
  {
    Go(s, Step(Sensor, 0), timely);
    assert Next(s, Step(Sensor, 0)) == s.(thermal := SensorNext(s.thermal, 0));
  }

  // s with the sensor thread at pc.
  function Sensing(s: Sys, d: ThermalData, passes: nat, pc: SensorPc): Sys {
    var mutex := if pc.SenAsleep? || pc.SenLock? || pc.SenSend? then None else Some(Sensor);
    s.(thermal := Thermal(d, passes, mutex, pc, HeatAsleep, TbAsleep))
  }

  // The data after one more reading in which rand() returns 0 each time.
  function Read(d: ThermalData, pass: nat): ThermalData {
    ThermalData(CpuReading(pass, d.cpu, 0), 15, 20, 18, d.heaterOn, d.faultActive)
  }

  lemma SensorReads(s: Sys, d: ThermalData, passes: nat, timely: bool)
    requires Reachable(Sensing(s, d, passes, SenAsleep), timely)
    ensures Reachable(Sensing(s, Read(d, passes + 1), passes + 1, SenJudge), timely)
  {
    SensorGoes(Sensing(s, d, passes, SenAsleep), timely);
    SensorGoes(Sensing(s, d, passes + 1, SenLock), timely);
    SensorGoes(Sensing(s, d, passes + 1, SenBattery), timely);
    var d1 := d.(battery := 15);
    SensorGoes(Sensing(s, d1, passes + 1, SenAntenna), timely);
    var d2 := d1.(antenna := 20);
    SensorGoes(Sensing(s, d2, passes + 1, SenBody), timely);
    SensorGoes(Sensing(s, d2.(body := 18), passes + 1, SenCpu), timely);
  }

  // A reading that calls for no report.
  lemma SensorRests(s: Sys, d: ThermalData, passes: nat, timely: bool)
    requires Reachable(Sensing(s, d, passes, SenJudge), timely)
    requires if d.faultActive then d.cpu >= TEMP_WARNING else d.cpu < TEMP_WARNING
    ensures Reachable(Sensing(s, d, passes, SenAsleep), timely)
  {
    SensorGoes(Sensing(s, d, passes, SenJudge), timely);
    SensorGoes(Sensing(s, d, passes, SenUnlock), timely);
  }

  lemma SensorReports(s: Sys, d: ThermalData, passes: nat, severity: Severity, timely: bool)
    requires Reachable(Sensing(s, d, passes, SenJudge), timely)
    requires if severity == CRITICAL then !d.faultActive && d.cpu >= TEMP_CRITICAL
             else severity == INFO && d.faultActive && d.cpu < TEMP_WARNING
    ensures var judged := d.(faultActive := severity == CRITICAL);
            Reachable(Sensing(s, judged, passes, SenSend(CpuAlert(severity, d.cpu))), timely)
  {
    var judged := d.(faultActive := severity == CRITICAL);
    SensorGoes(Sensing(s, d, passes, SenJudge), timely);
    SensorGoes(Sensing(s, judged, passes, SenUnlockSend(CpuAlert(severity, d.cpu))), timely);
  }

  // ----- the thermal bus writer -----

  function Copying(s: Sys, pc: ThermalBusPc, holds: bool, bus: Bus): Sys {
    var mutex := if holds then Some(ThermalBus) else None;
    var sem := if pc.TbAsleep? || pc.TbSem? then None else Some(ThermalBus);
    s.(thermal := s.thermal.(bus := pc, mutex := mutex), sem := sem, bus := bus)
  }

  lemma CopyBegins(s: Sys, timely: bool)
    requires Reachable(s, timely) && s == Copying(s, TbAsleep, false, s.bus)
    ensures Reachable(Copying(s, TbBattery, true, s.bus.(cpu := s.thermal.d.cpu)), timely)
  {
    Go(s, Step(ThermalBus, 0), timely);
    Go(Copying(s, TbSem, false, s.bus), Step(ThermalBus, 0), timely);
    Go(Copying(s, TbLock, false, s.bus), Step(ThermalBus, 0), timely);
    Go(Copying(s, TbCpu, true, s.bus), Step(ThermalBus, 0), timely);
  }

  function Copied(s: Sys): Bus {
    var d := s.thermal.d;
    s.bus.(cpu := d.cpu, zoneBattery := d.battery, zoneAntenna := d.antenna, zoneBody := d.body)
  }

  lemma CopyGoesOn(s: Sys, timely: bool)
    requires Reachable(s, timely) && s == Copying(s, TbAsleep, false, s.bus)
    ensures Reachable(Copying(s, TbUnlock, true, Copied(s)), timely)
  {
    CopyBegins(s, timely);
    var d := s.thermal.d;
    var b := s.bus.(cpu := d.cpu);
    Go(Copying(s, TbBattery, true, b), Step(ThermalBus, 0), timely);
    Go(Copying(s, TbAntenna, true, b.(zoneBattery := d.battery)), Step(ThermalBus, 0), timely);
    Go(Copying(s, TbBody, true, b.(zoneBattery := d.battery, zoneAntenna := d.antenna)), Step(ThermalBus, 0), timely);
  }

  lemma BusCopies(s: Sys, timely: bool)
    requires Reachable(s, timely) && s == Copying(s, TbAsleep, false, s.bus)
    ensures Reachable(s.(bus := Copied(s)), timely)
  {
    CopyGoesOn(s, timely);
    Go(Copying(s, TbUnlock, true, Copied(s)), Step(ThermalBus, 0), timely);
    Go(Copying(s, TbPost, false, Copied(s)), Step(ThermalBus, 0), timely);
    assert Copying(s, TbAsleep, false, Copied(s)) == s.(bus := Copied(s));
  }

  // ----- the watchdog -----

  function Watching(s: Sys, o: Obc, holds: bool): Sys {
    s.(obc := o, sem := if holds then Some(Watchdog) else None)
  }

  lemma WatchdogWakes(s: Sys, timely: bool)
    requires Reachable(s, timely) && s.sem.None? && s.obc.pc.WAsleep? && s.obc.tick % 2 == 0
    ensures Reachable(Watching(s, s.obc.(pc := WBattery, tick := s.obc.tick + 2), true), timely)
  {
    Go(s, Step(Watchdog, 0), timely);
    Go(Watching(s, s.obc.(tick := s.obc.tick + 1), false), Step(Watchdog, 0), timely);
    Go(Watching(s, s.obc.(tick := s.obc.tick + 2, pc := WSem), false), Step(Watchdog, 0), timely);
  }

  lemma WatchdogReads(s: Sys, o: Obc, timely: bool)
    requires Reachable(Watching(s, o, true), timely) && o.pc.WBattery?
    ensures Reachable(Watching(s, o.(pc := WSolar, batt := s.bus.battery, temp := s.bus.cpu), true), timely)
  {
    Go(Watching(s, o, true), Step(Watchdog, 0), timely);
    Go(Watching(s, o.(pc := WTemp, batt := s.bus.battery), true), Step(Watchdog, 0), timely);
  }

  lemma WatchdogReadsOn(s: Sys, o: Obc, timely: bool)
    requires Reachable(Watching(s, o, true), timely) && o.pc.WSolar?
    ensures Reachable(Watching(s, o.(pc := WDecide, solar := s.bus.solar, safe := s.bus.safe), false), timely)
  {
    Go(Watching(s, o, true), Step(Watchdog, 0), timely);
    Go(Watching(s, o.(pc := WSafe, solar := s.bus.solar), true), Step(Watchdog, 0), timely);
    Go(Watching(s, o.(pc := WPost, solar := s.bus.solar, safe := s.bus.safe), true), Step(Watchdog, 0), timely);
  }

  lemma WatchdogDecides(s: Sys, mode: bool, timely: bool)
    requires Reachable(s, timely) && s.sem.None? && s.obc.pc.WDecide?
    requires if mode then EntersSafe(s.obc) else LeavesSafe(s.obc)
    requires timely ==> forall c | 0 <= c < 4 :: NothingPending(s.inbox[c])
    ensures Reachable(s.(obc := s.obc.(pc := WKill(0, mode), last := mode)), timely)
  {
    Go(s, Step(Watchdog, 0), timely);
  }

  // The signal is pending for the first n children.
  function Sent(inbox: Inboxes, n: nat, mode: bool): Inboxes {
    [if n > 0 then Kill(inbox[0], mode) else inbox[0], if n > 1 then Kill(inbox[1], mode) else inbox[1],
     if n > 2 then Kill(inbox[2], mode) else inbox[2], if n > 3 then Kill(inbox[3], mode) else inbox[3]]
  }

  lemma {:induction false} WatchdogSignals(s: Sys, mode: bool, n: nat, timely: bool)
    requires Reachable(s, timely) && s.obc.pc == WKill(0, mode) && n <= 4
    ensures Reachable(s.(obc := s.obc.(pc := WKill(n, mode)), inbox := Sent(s.inbox, n, mode)), timely)
  {
    if n == 0 {
      assert Sent(s.inbox, 0, mode) == s.inbox;
    } else {
      WatchdogSignals(s, mode, n - 1, timely);
      var inbox := Sent(s.inbox, n - 1, mode);
      Go(s.(obc := s.obc.(pc := WKill(n - 1, mode)), inbox := inbox), Step(Watchdog, 0), timely);
      assert Sent(s.inbox, n, mode) == inbox[n - 1 := Kill(inbox[n - 1], mode)];
    }
  }

  lemma WatchdogLocks(s: Sys, mode: bool, timely: bool)
    requires Reachable(s, timely) && s.sem.None? && s.obc.pc == WKill(4, mode)
    ensures Reachable(Watching(s, s.obc.(pc := WWrite(mode)), true), timely)
  {
    Go(s, Step(Watchdog, 0), timely);
    Go(Watching(s, s.obc.(pc := WSem2(mode)), false), Step(Watchdog, 0), timely);
  }

  lemma WatchdogWrites(s: Sys, mode: bool, timely: bool)
    requires Reachable(s, timely) && s.sem.None? && s.obc.pc == WKill(4, mode)
    ensures Reachable(s.(obc := s.obc.(pc := WAsleep), bus := s.bus.(safe := mode)), timely)
  {
    WatchdogLocks(s, mode, timely);
    Go(Watching(s, s.obc.(pc := WWrite(mode)), true), Step(Watchdog, 0), timely);
    Go(Watching(s, s.obc.(pc := WPost2), true).(bus := s.bus.(safe := mode)), Step(Watchdog, 0), timely);
  }

  // What the watchdog knows after its reads, two ticks on.
  function Decided(s: Sys): Obc {
    Obc(WDecide, s.obc.tick + 2, s.bus.battery, s.bus.cpu, s.bus.solar, s.bus.safe, s.obc.last)
  }

  function Called(s: Sys, mode: bool): Sys {
    s.(obc := Decided(s).(pc := WAsleep, last := mode), bus := s.bus.(safe := mode), inbox := Sent(s.inbox, 4, mode))
  }

  // One call of watchdog(), with nothing else running, that broadcasts `mode`.
  lemma WatchdogRuns(s: Sys, mode: bool, timely: bool)
    requires Reachable(s, timely) && s.sem.None? && s.obc.pc.WAsleep? && s.obc.tick % 2 == 0
    requires if mode then EntersSafe(Decided(s)) else LeavesSafe(Decided(s))
    requires timely ==> forall c | 0 <= c < 4 :: NothingPending(s.inbox[c])
    ensures Reachable(Called(s, mode), timely)
  {
    WatchdogWakes(s, timely);
    var o := s.obc.(pc := WBattery, tick := s.obc.tick + 2);
    WatchdogReads(s, o, timely);
    WatchdogReadsOn(s, o.(pc := WSolar, batt := s.bus.battery, temp := s.bus.cpu), timely);
    assert Watching(s, Decided(s), false) == s.(obc := Decided(s));
    WatchdogDecides(s.(obc := Decided(s)), mode, timely);
    var killing := s.(obc := Decided(s).(pc := WKill(0, mode), last := mode));
    WatchdogSignals(killing, mode, 4, timely);
    WatchdogWrites(killing.(obc := killing.obc.(pc := WKill(4, mode)), inbox := Sent(s.inbox, 4, mode)), mode, timely);
  }

  // ----- the first SAFE of every run that begins like this -----

  const MILD := ThermalData(28, 15, 20, 18, false, false)
  const HOT := ThermalData(110, 15, 20, 18, false, true)
  const OVERHEAT := Alert(THERMAL, CRITICAL, 110, TEMP_CRITICAL, CpuOverheat)

  lemma {:induction false} MildPasses(passes: nat, timely: bool)
    requires 1 <= passes < THERMAL_SPIKE
    ensures Reachable(Sensing(Init(), MILD, passes, SenAsleep), timely)
  {
    if passes == 1 {
      InitIsReachable(timely);
      assert Sensing(Init(), INITIAL_THERMAL, 0, SenAsleep) == Init();
      SensorReads(Init(), INITIAL_THERMAL, 0, timely);
    } else {
      MildPasses(passes - 1, timely);
      SensorReads(Init(), MILD, passes - 1, timely);
    }
    SensorRests(Init(), MILD, passes, timely);
  }

  // The sensor has judged the spike and is about to send its alert.
  function Overheated(): Sys {
    Sensing(Init(), HOT, THERMAL_SPIKE, SenSend(OVERHEAT))
  }

  lemma Overheats(timely: bool)
    ensures Reachable(Overheated(), timely)
  {
    MildPasses(THERMAL_SPIKE - 1, timely);
    SensorReads(Init(), MILD, THERMAL_SPIKE - 1, timely);
    SensorReports(Init(), HOT.(faultActive := false), THERMAL_SPIKE, CRITICAL, timely);
  }

  // The bus shows the spike, and the watchdog has broadcast and written SAFE.
  function Alarmed(): Sys {
    Called(Overheated().(bus := Copied(Overheated())), true)
  }

  lemma Alarm(timely: bool)
    ensures Reachable(Alarmed(), timely)
  {
    Overheats(timely);
    BusCopies(Overheated(), timely);
    WatchdogRuns(Overheated().(bus := Copied(Overheated())), true, timely);
  }
}
