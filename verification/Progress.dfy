/** Freedom from deadlock and from livelock while the logger runs. */
module Progress {
  import opened Alerts
  import opened Spacecraft
  import opened Locks

  predicate Holds(s: Sys, t: Tid, w: Want) {
    match w
    case WantSem => HoldsSem(s, t)
    case WantPower =>
      || (t == Solar && SolarHolds(s.power.solar)) || (t == Battery && BatteryHolds(s.power.battery))
      || (t == PowerBus && PowerBusHolds(s.power.bus))
    case WantThermal =>
      || (t == Sensor && SensorHolds(s.thermal.sensor)) || (t == Heater && HeaterHolds(s.thermal.heater))
      || (t == ThermalBus && ThermalBusHolds(s.thermal.bus))
    case WantComms =>
      (t == Uplink && UplinkHolds(s.comms.uplink)) || (t == Downlink && DownlinkHolds(s.comms.downlink))
    case _ => false
  }

  // The order in which every thread waits: semaphore, then a mutex, then room in the queue.
  function Rank(w: Want): nat {
    match w
    case WantSem => 1
    case WantPower => 2
    case WantThermal => 2
    case WantComms => 2
    case WantSpace => 3
    case Ready => 4
  }

  lemma LocksAreTakenInOrder(s: Sys, t: Tid, held: Want)
    requires Holds(s, t, held)
    ensures Rank(Wants(s, t)) > Rank(held)
  {
  }

  // t is blocked on a lock that u holds.
  predicate WaitsOn(s: Sys, t: Tid, u: Tid) {
    !Granted(s, Wants(s, t)) && Holds(s, u, Wants(s, t))
  }

  ghost predicate WaitChain(s: Sys, ts: seq<Tid>) {
    forall i | 0 <= i < |ts| - 1 :: WaitsOn(s, ts[i], ts[i + 1])
  }

  lemma {:induction false} RanksRise(s: Sys, ts: seq<Tid>, i: nat)
    requires WaitChain(s, ts) && i < |ts|
    ensures Rank(Wants(s, ts[i])) >= Rank(Wants(s, ts[0])) + i
  {
    if i == 0 {
    } else {
      RanksRise(s, ts, i - 1);
      assert WaitsOn(s, ts[i - 1], ts[i]);
      LocksAreTakenInOrder(s, ts[i], Wants(s, ts[i - 1]));
    }
  }

  // No state whatever has a cycle of waiting threads, or even a chain of more than two waits.
  lemma NoWaitCycle(s: Sys, ts: seq<Tid>)
    requires WaitChain(s, ts)
    ensures |ts| <= 3
    ensures |ts| > 1 ==> ts[0] != ts[|ts| - 1]
  {
    if |ts| > 1 {
      RanksRise(s, ts, |ts| - 1);
      RanksRise(s, ts, |ts| - 2);
      assert WaitsOn(s, ts[|ts| - 2], ts[|ts| - 1]);
      LocksAreTakenInOrder(s, ts[|ts| - 1], Wants(s, ts[|ts| - 2]));
    }
  }

  // ----- distance to sleep -----

  // A thread at its sleep; the logger rests when it waits at an empty queue.
  predicate Resting(s: Sys, t: Tid) {
    match t
    case Solar => s.power.solar.SolarAsleep?
    case Battery => s.power.battery.BatAsleep?
    case PowerBus => s.power.bus.PbAsleep?
    case Sensor => s.thermal.sensor.SenAsleep?
    case Heater => s.thermal.heater.HeatAsleep?
    case ThermalBus => s.thermal.bus.TbAsleep?
    case Uplink => s.comms.uplink.UpAsleep?
    case Downlink => s.comms.downlink.DnAsleep?
    case Watchdog => s.obc.pc.WAsleep?
    case Logger => s.logger.pc.LgReceive? && s.queue == []
  }

  // An action inside some loop body, as opposed to a thread waking up or the logger timing out.
  predicate InBody(s: Sys, a: Action) {
    a.Deliver? || !Resting(s, a.t)
  }

  ghost predicate Idle(s: Sys) {
    && (forall t :: Resting(s, t))
    && (forall c | 0 <= c < 4 :: !s.inbox[c].usr1 && !s.inbox[c].usr2)
  }

  function SolarDistance(pc: SolarPc): nat {
    match pc
    case SolarAsleep => 0 case SolarUnlock => 1 case SolarFlag => 2 case SolarWatts => 3 case SolarLock => 4
  }

  function BatteryDistance(pc: BatteryPc): nat {
    match pc
    case BatAsleep => 0 case BatUnlock => 1 case BatSend(_) => 4 case BatSendHeld(_) => 5 case BatUnlockSend(_) => 5
    case BatJudge => 6 case BatLevel => 7 case BatLock => 8
  }

  function PowerBusDistance(pc: PowerBusPc): nat {
    match pc
    case PbAsleep => 0 case PbPost => 1 case PbUnlock => 2 case PbMode(_) => 3 case PbLoad => 4 case PbBattery => 5
    case PbSolar => 6 case PbLock => 7 case PbSem => 8
  }

  function PowerDistance(p: Power): nat {
    SolarDistance(p.solar) + BatteryDistance(p.battery) + PowerBusDistance(p.bus)
  }

  function SensorDistance(pc: SensorPc): nat {
    match pc
    case SenAsleep => 0 case SenUnlock => 1 case SenSend(_) => 4 case SenUnlockSend(_) => 5 case SenJudge => 6
    case SenCpu => 7 case SenBody => 8 case SenAntenna => 9 case SenBattery => 10 case SenLock => 11
  }

  function HeaterDistance(pc: HeaterPc): nat {
    match pc
    case HeatAsleep => 0 case HeatUnlock => 1 case HeatSendHeld(_) => 5 case HeatJudge => 6 case HeatLock => 7
  }

  function ThermalBusDistance(pc: ThermalBusPc): nat {
    match pc
    case TbAsleep => 0 case TbPost => 1 case TbUnlock => 2 case TbBody => 3 case TbAntenna => 4 case TbBattery => 5
    case TbCpu => 6 case TbLock => 7 case TbSem => 8
  }

  function ThermalDistance(p: Thermal): nat {
    SensorDistance(p.sensor) + HeaterDistance(p.heater) + ThermalBusDistance(p.bus)
  }

  function UplinkDistance(pc: UplinkPc): nat {
    match pc
    case UpAsleep => 0 case UpLastUnlock => 1 case UpLastLock => 2 case UpStatusPost => 3 case UpStatusSem => 4
    case UpSend(_) => 6 case UpDispatch(_) => 7 case UpUnlock(_) => 8 case UpLock(_) => 9
  }

  function DownlinkDistance(pc: DownlinkPc): nat {
    match pc
    case DnAsleep => 0 case DnPost => 1 case DnWrite(_) => 2 case DnSem(_) => 3 case DnSnapshot(_) => 7
    case DnUnlock(_) => 8 case DnUnlockRest => 1 case DnSend(_) => 4 case DnUnlockSend(_) => 5
    case DnJudge => 9 case DnSignal(_) => 10 case DnDropout => 11 case DnMode => 12 case DnLock => 13
  }

  function CommsDistance(p: Comms): nat {
    UplinkDistance(p.uplink) + DownlinkDistance(p.downlink)
  }

  function WatchDistance(pc: WatchPc): nat {
    match pc
    case WAsleep => 0 case WPost2 => 1 case WWrite(_) => 2 case WSem2(_) => 3
    case WKill(c, _) => if c < 4 then 12 - 2 * c else 4
    case WDecide => 13 case WPost => 14 case WSafe => 15 case WSolar => 16 case WTemp => 17 case WBattery => 18
    case WSem => 19
  }

  function LoggerDistance(pc: LoggerPc): nat {
    match pc
    case LgReceive => 0 case LgTop => 1 case LgHandle(_) => 2
  }

  function Pending(i: Inbox): nat {
    (if i.usr1 then 1 else 0) + (if i.usr2 then 1 else 0)
  }

  function AllPending(b: Inboxes): nat {
    Pending(b[0]) + Pending(b[1]) + Pending(b[2]) + Pending(b[3])
  }

  function Distance(s: Sys): nat {
    PowerDistance(s.power) + ThermalDistance(s.thermal) + CommsDistance(s.comms) + WatchDistance(s.obc.pc)
    + LoggerDistance(s.logger.pc) + 3 * |s.queue| + AllPending(s.inbox)
  }

  // A step that sends must pay for the message it leaves to the logger.
  function Toll(s: Sys, t: Tid): nat {
    if Sends(s, t).Some? then 4 else 1
  }

  lemma PowerComesCloser(s: Sys, t: Tid, pick: nat, safe: bool)
    requires !Resting(s, t) && (t == Solar || t == Battery || t == PowerBus)
    ensures PowerDistance(PowerNext(s.power, t, pick, safe)) + Toll(s, t) <= PowerDistance(s.power)
  {
  }

  lemma ThermalComesCloser(s: Sys, t: Tid, pick: nat)
    requires !Resting(s, t) && (t == Sensor || t == Heater || t == ThermalBus)
    ensures ThermalDistance(ThermalNext(s.thermal, t, pick)) + Toll(s, t) <= ThermalDistance(s.thermal)
  {
  }

  lemma CommsComesCloser(s: Sys, t: Tid, pick: nat, safe: bool)
    requires !Resting(s, t) && (t == Uplink || t == Downlink)
    ensures CommsDistance(CommsNext(s.comms, t, pick, safe)) + Toll(s, t) <= CommsDistance(s.comms)
  {
  }

  lemma KillAddsAtMostOne(b: Inboxes, c: nat, safe: bool)
    requires c < 4
    ensures AllPending(b[c := Kill(b[c], safe)]) <= AllPending(b) + 1
  {
    match c
    case 0 =>
    case 1 =>
    case 2 =>
    case _ =>
  }

  lemma HandlingRemovesOne(b: Inboxes, c: nat, safe: bool)
    requires c < 4 && (if safe then b[c].usr1 else b[c].usr2)
    ensures AllPending(b[c := Handled(b[c], safe)]) == AllPending(b) - 1
  {
    match c
    case 0 =>
    case 1 =>
    case 2 =>
    case _ =>
  }

  lemma WatchdogComesCloser(s: Sys)
    requires !Resting(s, Watchdog)
    ensures WatchDistance(WatchdogNext(s.obc, s.bus).pc) + AllPending(InboxNext(s, Watchdog))
            < WatchDistance(s.obc.pc) + AllPending(s.inbox)
  {
    if s.obc.pc.WKill? && s.obc.pc.child < 4 {
      KillAddsAtMostOne(s.inbox, s.obc.pc.child, s.obc.pc.safe);
    } else {
      assert InboxNext(s, Watchdog) == s.inbox;
    }
  }

  lemma LoggerComesCloser(s: Sys, safe: bool)
    requires !Resting(s, Logger)
    ensures LoggerDistance(LoggerNext(s.logger, Logger, s.queue, safe).pc) + 3 * |QueueNext(s, Logger)|
            < LoggerDistance(s.logger.pc) + 3 * |s.queue|
  {
  }

  lemma BodyStepsComeCloser(s: Sys, a: Action)
    requires Enabled(s, a) && InBody(s, a)
    ensures Distance(Next(s, a)) < Distance(s)
  {
    if a.Step? {
      match a.t {
        case Solar => PowerComesCloser(s, a.t, a.pick, s.inbox[POWER_CHILD].safe);
        case Battery => PowerComesCloser(s, a.t, a.pick, s.inbox[POWER_CHILD].safe);
        case PowerBus => PowerComesCloser(s, a.t, a.pick, s.inbox[POWER_CHILD].safe);
        case Sensor => ThermalComesCloser(s, a.t, a.pick);
        case Heater => ThermalComesCloser(s, a.t, a.pick);
        case ThermalBus => ThermalComesCloser(s, a.t, a.pick);
        case Uplink => CommsComesCloser(s, a.t, a.pick, s.inbox[COMMS_CHILD].safe);
        case Downlink => CommsComesCloser(s, a.t, a.pick, s.inbox[COMMS_CHILD].safe);
        case Watchdog => WatchdogComesCloser(s);
        case Logger => LoggerComesCloser(s, s.inbox[LOGGER_CHILD].safe);
      }
    } else {
      HandlingRemovesOne(s.inbox, a.child, a.safe);
    }
  }

  // ----- somebody can always move -----

  lemma MutexHolderMoves(s: Sys, t: Tid, w: Want)
    requires LockInv(s) && s.queue == [] && w != WantSem && Holds(s, t, w)
    ensures !Resting(s, t) && Granted(s, Wants(s, t))
  {
  }

  lemma WaiterUnblocked(s: Sys, t: Tid) returns (u: Tid)
    requires LockInv(s) && s.queue == [] && !Resting(s, t) && Wants(s, t) != WantSem
    ensures !Resting(s, u) && Granted(s, Wants(s, u))
  {
    u := t;
    match Wants(s, t) {
      case WantPower =>
        if s.power.mutex.Some? {
          u := s.power.mutex.value;
          MutexHolderMoves(s, u, WantPower);
        }
      case WantThermal =>
        if s.thermal.mutex.Some? {
          u := s.thermal.mutex.value;
          MutexHolderMoves(s, u, WantThermal);
        }
      case WantComms =>
        if s.comms.mutex.Some? {
          u := s.comms.mutex.value;
          MutexHolderMoves(s, u, WantComms);
        }
      case _ =>
    }
  }

  // Freedom from deadlock: unless every thread sleeps, some loop body can take its next step.
  lemma SomeoneMoves(s: Sys) returns (a: Action)
    requires LockInv(s) && !Idle(s)
    ensures InBody(s, a) && Enabled(s, a)
    ensures a.Step? ==> forall c | 0 <= c < 4 :: !s.inbox[c].usr1 && !s.inbox[c].usr2
  {
    if c :| 0 <= c < 4 && s.inbox[c].usr1 {
      a := Deliver(c, true);
    } else if c :| 0 <= c < 4 && s.inbox[c].usr2 {
      a := Deliver(c, false);
    } else if !Resting(s, Logger) {
      a := Step(Logger, 0);
    } else {
      var t :| !Resting(s, t);
      if Wants(s, t) == WantSem && s.sem.Some? {
        t := s.sem.value;
        LocksAreTakenInOrder(s, t, WantSem);
      }
      if Wants(s, t) == WantSem {
        a := Step(t, 0);
      } else {
        t := WaiterUnblocked(s, t);
        a := Step(t, 0);
      }
    }
  }

  // ----- every loop body reaches its sleep -----

  // However body steps and signals interleave, only boundedly many happen before a thread must wake up.
  lemma {:induction false} BodyRunsEnd(states: seq<Sys>, acts: seq<Action>, n: nat)
    requires Path(states, acts) && n <= |acts|
    requires forall k | 0 <= k < n :: InBody(states[k], acts[k])
    ensures n + Distance(states[n]) <= Distance(states[0])
  {
    if n == 0 {
    } else {
      BodyRunsEnd(states, acts, n - 1);
      assert StepAt(states, acts, n - 1);
      BodyStepsComeCloser(states[n - 1], acts[n - 1]);
    }
  }

  lemma IdleHoldsNothing(s: Sys)
    requires LockInv(s) && Idle(s)
    ensures s.sem.None? && s.power.mutex.None? && s.thermal.mutex.None? && s.comms.mutex.None? && s.queue == []
  {
    assert Resting(s, Solar) && Resting(s, Battery) && Resting(s, PowerBus);
    assert Resting(s, Sensor) && Resting(s, Heater) && Resting(s, ThermalBus);
    assert Resting(s, Uplink) && Resting(s, Downlink) && Resting(s, Watchdog) && Resting(s, Logger);
    forall t ensures s.sem != Some(t) {
      assert !HoldsSem(s, t);
    }
  }

  ghost predicate BodyPath(states: seq<Sys>, acts: seq<Action>) {
    Path(states, acts) && forall k | 0 <= k < |acts| :: InBody(states[k], acts[k])
  }

  lemma StepThenPath(s: Sys, a: Action, states: seq<Sys>, acts: seq<Action>)
    requires Enabled(s, a) && InBody(s, a) && BodyPath(states, acts) && states[0] == Next(s, a)
    ensures BodyPath([s] + states, [a] + acts)
  {
    forall k | 0 <= k < |acts| + 1
      ensures InBody(([s] + states)[k], ([a] + acts)[k]) && StepAt([s] + states, [a] + acts, k)
    {
      if k > 0 {
        assert StepAt(states, acts, k - 1);
      }
    }
  }

  // From every state that keeps the lock discipline, body steps alone reach a state where all sleep.
  lemma {:induction false} Quiesce(s: Sys) returns (states: seq<Sys>, acts: seq<Action>)
    requires LockInv(s)
    ensures BodyPath(states, acts) && states[0] == s
    ensures LockInv(states[|acts|]) && Idle(states[|acts|])
    decreases Distance(s)
  {
    if Idle(s) {
      states, acts := [s], [];
    } else {
      var a := SomeoneMoves(s);
      BodyStepsComeCloser(s, a);
      LockInvStep(s, a);
      states, acts := Quiesce(Next(s, a));
      StepThenPath(s, a, states, acts);
      states, acts := [s] + states, [a] + acts;
    }
  }

  lemma RestingThreadWakes(s: Sys, t: Tid)
    requires Resting(s, t)
    ensures Enabled(s, Step(t, 0))
  {
  }

  lemma PathExtends(states: seq<Sys>, acts: seq<Action>, a: Action)
    requires Path(states, acts) && Enabled(states[|acts|], a)
    ensures Path(states + [Next(states[|acts|], a)], acts + [a])
  {
    var after := Next(states[|acts|], a);
    forall k | 0 <= k < |acts| + 1 ensures StepAt(states + [after], acts + [a], k) {
      if k < |acts| {
        assert StepAt(states, acts, k);
      }
    }
  }

  // Freedom from starvation in the weak sense that fair schedules need: whatever has happened so
  // far, the run can be continued so that a chosen thread takes a step.
  lemma AnyThreadCanRun(states: seq<Sys>, acts: seq<Action>, t: Tid)
    returns (longerStates: seq<Sys>, longerActs: seq<Action>)
    requires Execution(states, acts)
    ensures Execution(longerStates, longerActs)
    ensures acts < longerActs && states < longerStates && longerActs[|longerActs| - 1] == Step(t, 0)
  {
    LocksHold(states, acts, |acts|);
    var s, a := Quiesce(states[|acts|]);
    assert Resting(s[|a|], t);
    RestingThreadWakes(s[|a|], t);
    PathsCompose(states, acts, s, a);
    PathExtends(states + s[1..], acts + a, Step(t, 0));
    longerStates := states + s[1..] + [Next(s[|a|], Step(t, 0))];
    longerActs := acts + a + [Step(t, 0)];
  }
}
