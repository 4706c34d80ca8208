/**
 Mutual exclusion: each lock names exactly the one thread whose program counter lies inside a
 critical section of that lock.
 */
module Locks {
  import opened Alerts
  import opened Spacecraft

  predicate SolarHolds(pc: SolarPc) { pc.SolarWatts? || pc.SolarFlag? || pc.SolarUnlock? }

  predicate BatteryHolds(pc: BatteryPc) { !pc.BatAsleep? && !pc.BatLock? && !pc.BatSend? }

  predicate PowerBusHolds(pc: PowerBusPc) { pc.PbSolar? || pc.PbBattery? || pc.PbLoad? || pc.PbMode? || pc.PbUnlock? }

  predicate PowerBusHoldsSem(pc: PowerBusPc) { !pc.PbAsleep? && !pc.PbSem? }

  predicate SensorHolds(pc: SensorPc) { !pc.SenAsleep? && !pc.SenLock? && !pc.SenSend? }

  predicate HeaterHolds(pc: HeaterPc) { !pc.HeatAsleep? && !pc.HeatLock? }

  predicate ThermalBusHoldsSem(pc: ThermalBusPc) { !pc.TbAsleep? && !pc.TbSem? }

  predicate ThermalBusHolds(pc: ThermalBusPc) { ThermalBusHoldsSem(pc) && !pc.TbLock? && !pc.TbPost? }

  predicate UplinkHolds(pc: UplinkPc) { pc.UpUnlock? || pc.UpLastUnlock? }

  predicate UplinkHoldsSem(pc: UplinkPc) { pc.UpStatusPost? }

  predicate DownlinkHolds(pc: DownlinkPc) {
    pc.DnMode? || pc.DnDropout? || pc.DnSignal? || pc.DnJudge? || pc.DnUnlockSend? || pc.DnUnlockRest? || pc.DnUnlock?
  }

  predicate DownlinkHoldsSem(pc: DownlinkPc) { pc.DnWrite? || pc.DnPost? }

  predicate WatchdogHoldsSem(pc: WatchPc) {
    pc.WBattery? || pc.WTemp? || pc.WSolar? || pc.WSafe? || pc.WPost? || pc.WWrite? || pc.WPost2?
  }

  predicate HoldsSem(s: Sys, t: Tid) {
    match t
    case PowerBus => PowerBusHoldsSem(s.power.bus)
    case ThermalBus => ThermalBusHoldsSem(s.thermal.bus)
    case Uplink => UplinkHoldsSem(s.comms.uplink)
    case Downlink => DownlinkHoldsSem(s.comms.downlink)
    case Watchdog => WatchdogHoldsSem(s.obc.pc)
    case _ => false
  }

  predicate PowerLock(p: Power) {
    && (p.mutex == Some(Solar) <==> SolarHolds(p.solar))
    && (p.mutex == Some(Battery) <==> BatteryHolds(p.battery))
    && (p.mutex == Some(PowerBus) <==> PowerBusHolds(p.bus))
    && (p.mutex == None || p.mutex == Some(Solar) || p.mutex == Some(Battery) || p.mutex == Some(PowerBus))
  }

  predicate ThermalLock(p: Thermal) {
    && (p.mutex == Some(Sensor) <==> SensorHolds(p.sensor))
    && (p.mutex == Some(Heater) <==> HeaterHolds(p.heater))
    && (p.mutex == Some(ThermalBus) <==> ThermalBusHolds(p.bus))
    && (p.mutex == None || p.mutex == Some(Sensor) || p.mutex == Some(Heater) || p.mutex == Some(ThermalBus))
  }

  predicate CommsLock(p: Comms) {
    && (p.mutex == Some(Uplink) <==> UplinkHolds(p.uplink))
    && (p.mutex == Some(Downlink) <==> DownlinkHolds(p.downlink))
    && (p.mutex == None || p.mutex == Some(Uplink) || p.mutex == Some(Downlink))
  }

  ghost predicate SemLock(s: Sys) {
    forall t :: s.sem == Some(t) <==> HoldsSem(s, t)
  }

  ghost predicate LockInv(s: Sys) {
    && PowerLock(s.power) && ThermalLock(s.thermal) && CommsLock(s.comms) && SemLock(s)
    && |s.queue| <= MQ_MAX_MESSAGES
    && (s.obc.pc.WKill? ==> s.obc.pc.child <= 4)
  }

  lemma PowerLockStep(p: Power, t: Tid, pick: nat, safe: bool)
    requires PowerLock(p)
    requires p.solar.SolarLock? && t == Solar ==> p.mutex.None?
    requires p.battery.BatLock? && t == Battery ==> p.mutex.None?
    requires p.bus.PbLock? && t == PowerBus ==> p.mutex.None?
    ensures PowerLock(PowerNext(p, t, pick, safe))
  {
  }

  lemma ThermalLockStep(p: Thermal, t: Tid, pick: nat)
    requires ThermalLock(p)
    requires p.sensor.SenLock? && t == Sensor ==> p.mutex.None?
    requires p.heater.HeatLock? && t == Heater ==> p.mutex.None?
    requires p.bus.TbLock? && t == ThermalBus ==> p.mutex.None?
    ensures ThermalLock(ThermalNext(p, t, pick))
  {
  }

  lemma CommsLockStep(p: Comms, t: Tid, pick: nat, safe: bool)
    requires CommsLock(p)
    requires (p.uplink.UpLock? || p.uplink.UpLastLock?) && t == Uplink ==> p.mutex.None?
    requires p.downlink.DnLock? && t == Downlink ==> p.mutex.None?
    ensures CommsLock(CommsNext(p, t, pick, safe))
  {
  }

  lemma PostsWhatItHolds(s: Sys, t: Tid)
    ensures Posts(s, t) ==> HoldsSem(s, t)
  {
  }

  predicate TakesOrKeepsSem(s: Sys, t: Tid) {
    Wants(s, t) == WantSem || (HoldsSem(s, t) && !Posts(s, t))
  }

  lemma OwnCommsSemStep(s: Sys, t: Tid, pick: nat)
    requires t == Uplink || t == Downlink
    ensures HoldsSem(Next(s, Step(t, pick)), t) <==> TakesOrKeepsSem(s, t)
  {
  }

  lemma OwnSemStep(s: Sys, t: Tid, pick: nat)
    ensures HoldsSem(Next(s, Step(t, pick)), t) <==> TakesOrKeepsSem(s, t)
  {
    if t == Uplink || t == Downlink {
      OwnCommsSemStep(s, t, pick);
    }
  }

  // Only thread t itself enters or leaves its critical sections of the semaphore.
  lemma OtherSemStep(s: Sys, a: Action, t: Tid)
    requires a.Step? ==> a.t != t
    ensures HoldsSem(Next(s, a), t) == HoldsSem(s, t)
  {
  }

  lemma SemLockStep(s: Sys, a: Action)
    requires SemLock(s) && Enabled(s, a)
    ensures SemLock(Next(s, a))
  {
    forall t ensures Next(s, a).sem == Some(t) <==> HoldsSem(Next(s, a), t) {
      if a.Step? {
        OwnSemStep(s, a.t, a.pick);
        PostsWhatItHolds(s, a.t);
        assert s.sem == Some(a.t) <==> HoldsSem(s, a.t);
      }
      if !(a.Step? && a.t == t) {
        OtherSemStep(s, a, t);
      }
    }
  }

  lemma PowerGranted(s: Sys, t: Tid, pick: nat)
    requires PowerLock(s.power) && Enabled(s, Step(t, pick))
    ensures PowerLock(PowerNext(s.power, t, pick, s.inbox[POWER_CHILD].safe))
  {
    PowerLockStep(s.power, t, pick, s.inbox[POWER_CHILD].safe);
  }

  lemma ThermalGranted(s: Sys, t: Tid, pick: nat)
    requires ThermalLock(s.thermal) && Enabled(s, Step(t, pick))
    ensures ThermalLock(ThermalNext(s.thermal, t, pick))
  {
    ThermalLockStep(s.thermal, t, pick);
  }

  lemma CommsGranted(s: Sys, t: Tid, pick: nat)
    requires CommsLock(s.comms) && Enabled(s, Step(t, pick))
    ensures CommsLock(CommsNext(s.comms, t, pick, s.inbox[COMMS_CHILD].safe))
  {
    CommsLockStep(s.comms, t, pick, s.inbox[COMMS_CHILD].safe);
  }

  lemma QueueGranted(s: Sys, t: Tid, pick: nat)
    requires |s.queue| <= MQ_MAX_MESSAGES && Enabled(s, Step(t, pick))
    ensures |QueueNext(s, t)| <= MQ_MAX_MESSAGES
    ensures Sends(s, t).Some? <==> Wants(s, t) == WantSpace
  {
  }

  // A thread that is about to send waits exactly while ten messages are queued.
  lemma SendWaitsWhenFull(states: seq<Sys>, acts: seq<Action>, n: nat, t: Tid, pick: nat)
    requires Execution(states, acts) && n <= |acts| && Sends(states[n], t).Some?
    ensures |states[n].queue| <= 10
    ensures Enabled(states[n], Step(t, pick)) <==> |states[n].queue| != 10
  {
    LocksHold(states, acts, n);
  }

  lemma LockInvStep(s: Sys, a: Action)
    requires LockInv(s) && Enabled(s, a)
    ensures LockInv(Next(s, a))
  {
    if a.Step? {
      PowerGranted(s, a.t, a.pick);
      ThermalGranted(s, a.t, a.pick);
      CommsGranted(s, a.t, a.pick);
      QueueGranted(s, a.t, a.pick);
      assert ObcNext(s.obc, a.t, s.bus).pc.WKill? ==> ObcNext(s.obc, a.t, s.bus).pc.child <= 4;
    }
    SemLockStep(s, a);
  }

  lemma {:induction false} LocksHold(states: seq<Sys>, acts: seq<Action>, k: nat)
    requires Execution(states, acts) && k < |states|
    ensures LockInv(states[k])
  {
    if k == 0 {
      assert forall t :: !HoldsSem(Init(), t);
    } else {
      LocksHold(states, acts, k - 1);
      assert StepAt(states, acts, k - 1);
      LockInvStep(states[k - 1], acts[k - 1]);
    }
  }
}
