/**
 Infinite runs under a fair scheduler: whoever can move again and again does move again and again. That
 nobody starves is proved: every thread goes on stepping, through all contention for the locks and the
 queue, and every child handles its signals.
 */
module Fairness {
  import opened Alerts
  import opened Spacecraft
  import opened Locks
  import opened Progress
  import opened SafeMode

  ghost predicate Forever(st: nat -> Sys, act: nat -> Action) {
    st(0) == Init() && forall n: nat :: Takes(st(n), act(n), st(n + 1))
  }

  predicate StepOf(a: Action, t: Tid) {
    a.Step? && a.t == t
  }

  ghost predicate StepsAfter(act: nat -> Action, n: nat, t: Tid) {
    exists m: nat :: n <= m && StepOf(act(m), t)
  }

  ghost predicate DeliversAfter(act: nat -> Action, n: nat, c: nat, safe: bool) {
    exists m: nat :: n <= m && act(m) == Deliver(c, safe)
  }

  ghost predicate EnabledAfter(st: nat -> Sys, n: nat, a: Action) {
    exists m: nat :: n <= m && Enabled(st(m), a)
  }

  // A thread that can step infinitely often does step.
  ghost predicate FairSteps(st: nat -> Sys, act: nat -> Action) {
    forall n: nat, t | (forall m: nat | n <= m :: EnabledAfter(st, m, Step(t, 0))) :: StepsAfter(act, n, t)
  }

  // A signal that can be handled infinitely often is handled.
  ghost predicate FairSignals(st: nat -> Sys, act: nat -> Action) {
    forall n: nat, c: nat, safe | c < 4 && (forall m: nat | n <= m :: EnabledAfter(st, m, Deliver(c, safe))) ::
      DeliversAfter(act, n, c, safe)
  }

  ghost predicate TimelyForever(st: nat -> Sys, act: nat -> Action) {
    forall n: nat, c | 0 <= c < 4 && StartsBroadcast(st(n), act(n)) :: NothingPending(st(n).inbox[c])
  }

  ghost predicate FairRun(st: nat -> Sys, act: nat -> Action) {
    Forever(st, act) && FairSteps(st, act) && FairSignals(st, act) && TimelyForever(st, act)
  }

  lemma AlwaysLocked(st: nat -> Sys, act: nat -> Action, n: nat)
    requires Forever(st, act)
    ensures LockInv(st(n))
  {
    LocksHold([Init()], [], 0);
    for k := 0 to n
      invariant LockInv(st(k))
    {
      assert Takes(st(k), act(k), st(k + 1));
      LockInvStep(st(k), act(k));
    }
  }

  // ----- a thread stands still until it steps -----

  // The steps that t still has to take before it rests.
  function OwnDistance(s: Sys, t: Tid): nat {
    match t
    case Solar => SolarDistance(s.power.solar)
    case Battery => BatteryDistance(s.power.battery)
    case PowerBus => PowerBusDistance(s.power.bus)
    case Sensor => SensorDistance(s.thermal.sensor)
    case Heater => HeaterDistance(s.thermal.heater)
    case ThermalBus => ThermalBusDistance(s.thermal.bus)
    case Uplink => UplinkDistance(s.comms.uplink)
    case Downlink => DownlinkDistance(s.comms.downlink)
    case Watchdog => WatchDistance(s.obc.pc)
    case Logger => LoggerDistance(s.logger.pc)
  }

  ghost predicate Stands(s: Sys, after: Sys, t: Tid) {
    && Wants(after, t) == Wants(s, t) && OwnDistance(after, t) == OwnDistance(s, t)
    && (t == Logger ==> after.logger.pc == s.logger.pc)
    && forall w :: Holds(after, t, w) == Holds(s, t, w)
  }

  predicate SamePc(s: Sys, after: Sys, t: Tid) {
    match t
    case Solar => after.power.solar == s.power.solar
    case Battery => after.power.battery == s.power.battery
    case PowerBus => after.power.bus == s.power.bus
    case Sensor => after.thermal.sensor == s.thermal.sensor
    case Heater => after.thermal.heater == s.thermal.heater
    case ThermalBus => after.thermal.bus == s.thermal.bus
    case Uplink => after.comms.uplink == s.comms.uplink
    case Downlink => after.comms.downlink == s.comms.downlink && after.comms.elapsed == s.comms.elapsed
    case Watchdog => after.obc.pc == s.obc.pc && after.obc.tick == s.obc.tick
    case Logger => after.logger.pc == s.logger.pc
  }

  lemma PowerPcKept(p: Power, u: Tid, pick: nat, safe: bool)
    ensures var q := PowerNext(p, u, pick, safe);
            && (u != Solar ==> q.solar == p.solar) && (u != Battery ==> q.battery == p.battery)
            && (u != PowerBus ==> q.bus == p.bus)
  {
  }

  lemma ThermalPcKept(p: Thermal, u: Tid, pick: nat)
    ensures var q := ThermalNext(p, u, pick);
            && (u != Sensor ==> q.sensor == p.sensor) && (u != Heater ==> q.heater == p.heater)
            && (u != ThermalBus ==> q.bus == p.bus)
  {
  }

  lemma CommsPcKept(p: Comms, u: Tid, pick: nat, safe: bool)
    ensures var q := CommsNext(p, u, pick, safe);
            && (u != Uplink ==> q.uplink == p.uplink)
            && (u != Downlink ==> q.downlink == p.downlink && q.elapsed == p.elapsed)
  {
  }

  lemma OthersKeepPc(s: Sys, a: Action, after: Sys, t: Tid)
    requires Takes(s, a, after) && !StepOf(a, t)
    ensures SamePc(s, after, t)
  {
    if a.Step? {
      PowerPcKept(s.power, a.t, a.pick, s.inbox[POWER_CHILD].safe);
      ThermalPcKept(s.thermal, a.t, a.pick);
      CommsPcKept(s.comms, a.t, a.pick, s.inbox[COMMS_CHILD].safe);
    }
  }

  lemma SamePcStands(s: Sys, after: Sys, t: Tid)
    requires SamePc(s, after, t)
    ensures Stands(s, after, t)
  {
  }

  lemma StandsStill(st: nat -> Sys, act: nat -> Action, t: Tid, n: nat, m: nat)
    requires Forever(st, act) && n <= m && forall k: nat | n <= k < m :: !StepOf(act(k), t)
    ensures SamePc(st(n), st(m), t) && Stands(st(n), st(m), t)
  {
    for k := n to m
      invariant SamePc(st(n), st(k), t)
    {
      assert Takes(st(k), act(k), st(k + 1));
      OthersKeepPc(st(k), act(k), st(k + 1), t);
    }
    SamePcStands(st(n), st(m), t);
  }

  // t's next step, before which it stands still.
  lemma NextStep(st: nat -> Sys, act: nat -> Action, t: Tid, n: nat) returns (m: nat)
    requires Forever(st, act) && StepsAfter(act, n, t)
    ensures n <= m && StepOf(act(m), t) && Takes(st(m), act(m), st(m + 1))
    ensures SamePc(st(n), st(m), t) && Stands(st(n), st(m), t)
    ensures forall k: nat | n <= k < m :: !StepOf(act(k), t)
  {
    var later: nat :| n <= later && StepOf(act(later), t);
    m := n;
    while !StepOf(act(m), t)
      invariant n <= m <= later && forall k: nat | n <= k < m :: !StepOf(act(k), t)
      decreases later - m
    {
      m := m + 1;
    }
    StandsStill(st, act, t, n, m);
    assert Takes(st(m), act(m), st(m + 1));
  }

  // ----- every lock is released again, and the queue drained -----

  lemma PowerThreadsComeCloser(p: Power, pick: nat, safe: bool)
    ensures !p.solar.SolarAsleep? ==> SolarDistance(SolarNext(p, pick).solar) < SolarDistance(p.solar)
    ensures !p.battery.BatAsleep? ==> BatteryDistance(BatteryNext(p, pick).battery) < BatteryDistance(p.battery)
    ensures !p.bus.PbAsleep? ==> PowerBusDistance(PowerBusNext(p, safe).bus) < PowerBusDistance(p.bus)
  {
  }

  lemma ThermalThreadsComeCloser(p: Thermal, pick: nat)
    ensures !p.sensor.SenAsleep? ==> SensorDistance(SensorNext(p, pick).sensor) < SensorDistance(p.sensor)
    ensures !p.heater.HeatAsleep? ==> HeaterDistance(HeaterNext(p).heater) < HeaterDistance(p.heater)
    ensures !p.bus.TbAsleep? ==> ThermalBusDistance(ThermalBusNext(p).bus) < ThermalBusDistance(p.bus)
  {
  }

  lemma CommsThreadsComeCloser(p: Comms, pick: nat, safe: bool)
    ensures !p.uplink.UpAsleep? ==> UplinkDistance(UplinkNext(p, pick).uplink) < UplinkDistance(p.uplink)
    ensures !p.downlink.DnAsleep? ==>
              DownlinkDistance(DownlinkNext(p, pick, safe).downlink) < DownlinkDistance(p.downlink)
  {
  }

  lemma OwnStepComesCloser(s: Sys, t: Tid, pick: nat)
    requires !Resting(s, t) && t != Logger
    ensures OwnDistance(Next(s, Step(t, pick)), t) < OwnDistance(s, t)
  {
    PowerThreadsComeCloser(s.power, pick, s.inbox[POWER_CHILD].safe);
    ThermalThreadsComeCloser(s.thermal, pick);
    CommsThreadsComeCloser(s.comms, pick, s.inbox[COMMS_CHILD].safe);
  }

  lemma HoldersAreAwake(s: Sys, t: Tid, w: Want)
    requires Holds(s, t, w)
    ensures !Resting(s, t) && t != Logger && Rank(w) <= 2
  {
  }

  lemma HolderOf(s: Sys, w: Want) returns (t: Tid)
    requires LockInv(s) && !Granted(s, w) && Rank(w) <= 2
    ensures Holds(s, t, w)
  {
    match w {
      case WantSem => t := s.sem.value;
      case WantPower => t := s.power.mutex.value;
      case WantThermal => t := s.thermal.mutex.value;
      case WantComms => t := s.comms.mutex.value;
      case _ => assert false;
    }
  }

  lemma SemIsFreed(s: Sys, t: Tid, pick: nat)
    requires SemLock(s) && HoldsSem(s, t) && !HoldsSem(Next(s, Step(t, pick)), t)
    ensures Next(s, Step(t, pick)).sem.None?
  {
    assert s.sem == Some(t);
    OwnSemStep(s, t, pick);
  }

  lemma MutexIsFreed(s: Sys, t: Tid, w: Want, pick: nat)
    requires PowerLock(s.power) && ThermalLock(s.thermal) && CommsLock(s.comms) && w != WantSem
    requires Holds(s, t, w) && !Holds(Next(s, Step(t, pick)), t, w)
    ensures Granted(Next(s, Step(t, pick)), w)
  {
  }

  lemma ReleaseFrees(s: Sys, t: Tid, w: Want, pick: nat)
    requires LockInv(s) && Holds(s, t, w) && !Holds(Next(s, Step(t, pick)), t, w)
    ensures Granted(Next(s, Step(t, pick)), w)
  {
    if w == WantSem {
      SemIsFreed(s, t, pick);
    } else {
      MutexIsFreed(s, t, w, pick);
    }
  }

  // A thread never starves: by induction on the order of the locks, what it waits for becomes free
  // again and again, because whoever holds it waits at most for something later in the order.
  lemma {:induction false} EveryThreadSteps(st: nat -> Sys, act: nat -> Action, t: Tid, n: nat)
    requires FairRun(st, act)
    ensures StepsAfter(act, n, t)
    decreases 4 - Rank(Wants(st(n), t)), 2, 0
  {
    forall m: nat | n <= m && !StepsAfter(act, n, t) ensures EnabledAfter(st, m, Step(t, 0)) {
      var k := FreeAgain(st, act, Wants(st(n), t), m);
      StandsStill(st, act, t, n, k);
      assert Enabled(st(k), Step(t, 0));
    }
  }

  lemma {:induction false} FreeAgain(st: nat -> Sys, act: nat -> Action, w: Want, n: nat) returns (m: nat)
    requires FairRun(st, act)
    ensures n <= m && Granted(st(m), w)
    decreases 4 - Rank(w), 1, 0
  {
    m := n;
    if w == WantSpace {
      m := SpaceAgain(st, act, n);
    } else if !Granted(st(n), w) {
      AlwaysLocked(st, act, n);
      var holder := HolderOf(st(n), w);
      m := ReleasedAgain(st, act, w, n, holder);
    }
  }

  lemma {:induction false} ReleasedAgain(st: nat -> Sys, act: nat -> Action, w: Want, n: nat, holder: Tid)
    returns (m: nat)
    requires FairRun(st, act) && Holds(st(n), holder, w)
    ensures n <= m && Granted(st(m), w)
    decreases 4 - Rank(w), 0, OwnDistance(st(n), holder)
  {
    LocksAreTakenInOrder(st(n), holder, w);
    EveryThreadSteps(st, act, holder, n);
    m := NextStep(st, act, holder, n);
    HoldersAreAwake(st(m), holder, w);
    OwnStepComesCloser(st(m), holder, act(m).pick);
    if Holds(st(m + 1), holder, w) {
      m := ReleasedAgain(st, act, w, m + 1, holder);
    } else {
      AlwaysLocked(st, act, m);
      ReleaseFrees(st(m), holder, w, act(m).pick);
      m := m + 1;
    }
  }

  lemma LoggerMakesRoom(s: Sys, a: Action, after: Sys)
    requires Takes(s, a, after) && StepOf(a, Logger) && |s.queue| <= MQ_MAX_MESSAGES
    ensures if s.logger.pc.LgReceive? then |after.queue| < MQ_MAX_MESSAGES
            else after.logger.pc.LgReceive? || (s.logger.pc.LgHandle? && after.logger.pc.LgTop?)
  {
  }

  lemma {:induction false} SpaceAgain(st: nat -> Sys, act: nat -> Action, n: nat) returns (m: nat)
    requires FairRun(st, act)
    ensures n <= m && Granted(st(m), WantSpace)
    decreases 4 - Rank(WantSpace), 0, OwnDistance(st(n), Logger)
  {
    EveryThreadSteps(st, act, Logger, n);
    m := NextStep(st, act, Logger, n);
    AlwaysLocked(st, act, m);
    LoggerMakesRoom(st(m), act(m), st(m + 1));
    if st(m).logger.pc.LgReceive? {
      m := m + 1;
    } else {
      m := SpaceAgain(st, act, m + 1);
    }
  }

  // ----- every signal is handled -----

  lemma AlwaysFollowing(st: nat -> Sys, act: nat -> Action, n: nat, c: nat)
    requires Forever(st, act) && TimelyForever(st, act) && c < 4
    ensures ObcInv(st(n).obc) && ChildInv(st(n), c)
  {
    for k := 0 to n
      invariant ObcInv(st(k).obc) && ChildInv(st(k), c)
    {
      assert Takes(st(k), act(k), st(k + 1));
      ObcInvStep(st(k), act(k), st(k + 1));
      ChildInvStep(st(k), act(k), st(k + 1), c);
    }
  }

  predicate IsPending(i: Inbox, safe: bool) {
    if safe then i.usr1 else i.usr2
  }

  lemma PendingStays(s: Sys, a: Action, after: Sys, c: nat, safe: bool)
    requires Takes(s, a, after) && c < 4 && IsPending(s.inbox[c], safe) && a != Deliver(c, safe)
    ensures IsPending(after.inbox[c], safe)
  {
  }

  // Unless it is handled, a signal stays pending.
  lemma PendingUntilHandled(st: nat -> Sys, act: nat -> Action, n: nat, m: nat, c: nat, safe: bool)
    requires Forever(st, act) && n <= m && c < 4 && IsPending(st(n).inbox[c], safe)
    ensures IsPending(st(m).inbox[c], safe) || exists k: nat :: n <= k < m && act(k) == Deliver(c, safe)
  {
    for k := n to m
      invariant IsPending(st(k).inbox[c], safe) || exists j: nat :: n <= j < k && act(j) == Deliver(c, safe)
    {
      assert Takes(st(k), act(k), st(k + 1));
      if IsPending(st(k).inbox[c], safe) && act(k) != Deliver(c, safe) {
        PendingStays(st(k), act(k), st(k + 1), c, safe);
      }
    }
  }

  lemma HandledMeanwhile(st: nat -> Sys, act: nat -> Action, n: nat, k: nat, m: nat, c: nat, safe: bool)
    requires Forever(st, act) && n <= k <= m && c < 4
    requires IsPending(st(k).inbox[c], safe) && NothingPending(st(m).inbox[c])
    ensures DeliversAfter(act, n, c, safe)
  {
    PendingUntilHandled(st, act, k, m, c, safe);
  }

  lemma SignalComes(st: nat -> Sys, act: nat -> Action, n: nat, c: nat, safe: bool)
    requires FairRun(st, act) && c < 4 && IsPending(st(n).inbox[c], safe)
    ensures DeliversAfter(act, n, c, safe)
  {
    forall m: nat | n <= m && !DeliversAfter(act, n, c, safe) ensures EnabledAfter(st, m, Deliver(c, safe)) {
      PendingUntilHandled(st, act, n, m, c, safe);
      assert Enabled(st(m), Deliver(c, safe));
    }
  }

  lemma NothingElsePending(s: Sys, after: Sys, c: nat, safe: bool)
    requires c < 4 && ChildInv(s, c) && Takes(s, Deliver(c, safe), after)
    ensures NothingPending(after.inbox[c])
  {
  }

  // Sooner or later a child has handled every signal sent to it.
  lemma EveryInboxDrains(st: nat -> Sys, act: nat -> Action, n: nat, c: nat) returns (m: nat)
    requires FairRun(st, act) && c < 4
    ensures n <= m && NothingPending(st(m).inbox[c])
  {
    m := n;
    if !NothingPending(st(n).inbox[c]) {
      var safe := st(n).inbox[c].usr1;
      SignalComes(st, act, n, c, safe);
      m :| n <= m && act(m) == Deliver(c, safe);
      AlwaysFollowing(st, act, m, c);
      assert Takes(st(m), act(m), st(m + 1));
      NothingElsePending(st(m), st(m + 1), c, safe);
      m := m + 1;
    }
  }
}
