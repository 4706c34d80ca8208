/**
 The comms process in every run of the whole system: what the downlink draws and shows, and what it and
 the uplink send.
 */
module CommsRuns {
  import opened Alerts
  import opened CommsLink
  import opened Spacecraft
  import opened Ledger

  // ----- the signal quality -----

  // 0 in safe mode, 5 to 24 in a dropout, 60 to 99 otherwise.
  predicate MayBeDrawn(sig: int) {
    sig == 0 || 5 <= sig < 25 || 60 <= sig < 100
  }

  // The quality on its way to the bus.
  function InHandOf(pc: DownlinkPc): Option<int> {
    match pc
    case DnUnlock(sig) => Some(sig)
    case DnSnapshot(sig) => Some(sig)
    case DnSem(sig) => Some(sig)
    case DnWrite(sig) => Some(sig)
    case _ => None
  }

  predicate SignalInv(p: Comms, shown: int) {
    && MayBeDrawn(p.d.signal) && MayBeDrawn(shown) && shown != 0
    && (p.downlink.DnJudge? ==> p.d.signal != 0)
    && (InHandOf(p.downlink).Some? ==> InHandOf(p.downlink).value == p.d.signal != 0)
  }

  lemma DownlinkKeepsSignalInv(p: Comms, t: Tid, pick: nat, safe: bool, shown: int)
    requires SignalInv(p, shown)
    ensures var after := if t == Downlink && p.downlink.DnWrite? then p.downlink.sig else shown;
            SignalInv(CommsNext(p, t, pick, safe), after)
  {
  }

  lemma SignalInvStep(s: Sys, a: Action, after: Sys)
    requires Takes(s, a, after) && SignalInv(s.comms, s.bus.signal)
    ensures SignalInv(after.comms, after.bus.signal)
  {
    if a.Step? {
      DownlinkKeepsSignalInv(s.comms, a.t, a.pick, s.inbox[COMMS_CHILD].safe, s.bus.signal);
    }
  }

  // In every run the quality is 0 or one of the two ranges, the bus shows one of the ranges, and what is on its
  // way to the bus is the present quality.
  lemma {:induction false} SignalsAreDrawn(states: seq<Sys>, acts: seq<Action>, n: nat)
    requires Execution(states, acts) && n <= |acts|
    ensures var sig, shown := states[n].comms.d.signal, states[n].bus.signal;
            && (sig == 0 || 5 <= sig < 25 || 60 <= sig < 100)
            && (5 <= shown < 25 || 60 <= shown < 100)
            && (states[n].comms.downlink.DnWrite? ==> states[n].comms.downlink.sig == sig)
    ensures SignalInv(states[n].comms, states[n].bus.signal)
  {
    for k := 0 to n
      invariant SignalInv(states[k].comms, states[k].bus.signal)
    {
      assert StepAt(states, acts, k);
      SignalInvStep(states[k], acts[k], states[k + 1]);
    }
  }

  // ----- what is drawn -----

  predicate DrawsDropout(s: Sys, a: Action) {
    a.Step? && a.t == Downlink && s.comms.downlink.DnDropout?
  }

  // The latest draw that decided about a dropout, among the first n actions; -1 if there is none.
  function LatestDraw(states: seq<Sys>, acts: seq<Action>, n: nat): (k: int)
    requires n <= |acts| < |states|
    ensures -1 <= k < n && (k >= 0 ==> DrawsDropout(states[k], acts[k]))
  {
    if n == 0 then -1
    else if DrawsDropout(states[n - 1], acts[n - 1]) then n - 1
    else LatestDraw(states, acts, n - 1)
  }

  predicate KnowsDraw(states: seq<Sys>, acts: seq<Action>, n: nat)
    requires n <= |acts| < |states|
  {
    states[n].comms.downlink.DnSignal? ==>
      var k := LatestDraw(states, acts, n);
      k >= 0 && states[n].comms.downlink.dropout == (acts[k].pick % 20 == 0)
  }

  lemma DownlinkSteps(s: Sys, a: Action, after: Sys)
    requires Takes(s, a, after)
    ensures DrawsDropout(s, a) ==> after.comms.downlink == DnSignal(a.pick % 20 == 0)
    ensures !DrawsDropout(s, a) && after.comms.downlink.DnSignal? ==> after.comms.downlink == s.comms.downlink
    ensures a.Step? && a.t == Downlink && s.comms.downlink.DnMode? && s.inbox[COMMS_CHILD].safe ==>
              after.comms.d == s.comms.d.(signal := 0) && after.comms.downlink == DnUnlockRest
    ensures a.Step? && a.t == Downlink && s.comms.downlink.DnMode? && !s.inbox[COMMS_CHILD].safe ==>
              after.comms.d == s.comms.d && after.comms.downlink == DnDropout
    ensures a.Step? && a.t == Downlink && s.comms.downlink == DnSignal(true) ==>
              after.comms.d.signal == 5 + a.pick % 20 && after.comms.downlink == DnJudge
    ensures a.Step? && a.t == Downlink && s.comms.downlink == DnSignal(false) ==>
              after.comms.d.signal == 60 + a.pick % 40 && after.comms.downlink == DnJudge
  {
  }

  lemma KnowsDrawAt(states: seq<Sys>, acts: seq<Action>, n: nat)
    requires Path(states, acts) && n < |acts| && KnowsDraw(states, acts, n)
    ensures KnowsDraw(states, acts, n + 1)
  {
    assert StepAt(states, acts, n);
    DownlinkSteps(states[n], acts[n], states[n + 1]);
  }

  lemma {:induction false} DrawIsKnown(states: seq<Sys>, acts: seq<Action>, n: nat)
    requires Execution(states, acts) && n <= |acts|
    ensures KnowsDraw(states, acts, n)
  {
    for k := 0 to n
      invariant KnowsDraw(states, acts, k)
    {
      KnowsDrawAt(states, acts, k);
    }
  }

  // In every run, safe mode suspends the downlink with quality 0; otherwise a first draw divisible by 20 makes
  // the second one a quality of 5 to 24, and any other first draw one of 60 to 99.
  lemma QualityFollowsDraws(states: seq<Sys>, acts: seq<Action>, n: nat)
    requires Execution(states, acts) && n < |acts| && acts[n].Step? && acts[n].t == Downlink
    ensures states[n].comms.downlink.DnMode? && states[n].inbox[COMMS_CHILD].safe ==>
              states[n + 1].comms.d.signal == 0 && states[n + 1].comms.downlink == DnUnlockRest
    ensures states[n].comms.downlink.DnSignal? ==>
              var k := LatestDraw(states, acts, n);
              k >= 0 && states[n + 1].comms.d.signal
                        == if acts[k].pick % 20 == 0 then 5 + acts[n].pick % 20 else 60 + acts[n].pick % 40
  {
    assert StepAt(states, acts, n);
    DownlinkSteps(states[n], acts[n], states[n + 1]);
    DrawIsKnown(states, acts, n);
  }

  // ----- the periodic snapshots -----

  predicate WakesDownlink(s: Sys, a: Action) {
    a.Step? && a.t == Downlink && s.comms.downlink.DnAsleep?
  }

  // Passes of the downlink that have begun, among the first n actions.
  function DownlinkPasses(states: seq<Sys>, acts: seq<Action>, n: nat): nat
    requires n <= |acts| < |states|
  {
    if n == 0 then 0
    else DownlinkPasses(states, acts, n - 1) + (if WakesDownlink(states[n - 1], acts[n - 1]) then 1 else 0)
  }

  lemma PassStep(s: Sys, a: Action, after: Sys)
    requires Takes(s, a, after)
    ensures after.comms.elapsed == s.comms.elapsed + (if WakesDownlink(s, a) then 1 else 0)
  {
  }

  lemma {:induction false} PassesAreCounted(states: seq<Sys>, acts: seq<Action>, n: nat)
    requires Execution(states, acts) && n <= |acts|
    ensures states[n].comms.elapsed == DownlinkPasses(states, acts, n)
  {
    if n == 0 {
    } else {
      PassesAreCounted(states, acts, n - 1);
      assert StepAt(states, acts, n - 1);
      PassStep(states[n - 1], acts[n - 1], states[n]);
    }
  }

  // No alert decided on and not yet sent is a snapshot: the snapshots are made when they are sent.
  predicate NoSnapshotInPower(p: Power) {
    p.battery.BatUnlockSend? || p.battery.BatSend? || p.battery.BatSendHeld? ==>
      p.battery.alert.text != PeriodicSnapshot
  }

  predicate NoSnapshotInThermal(p: Thermal) {
    && (p.sensor.SenUnlockSend? || p.sensor.SenSend? ==> p.sensor.alert.text != PeriodicSnapshot)
    && (p.heater.HeatSendHeld? ==> p.heater.alert.text != PeriodicSnapshot)
  }

  predicate NoSnapshotInComms(p: Comms) {
    && (p.uplink.UpSend? ==> p.uplink.alert.text != PeriodicSnapshot)
    && (p.downlink.DnUnlockSend? || p.downlink.DnSend? ==> p.downlink.alert.text != PeriodicSnapshot)
  }

  predicate NoSnapshotWaits(s: Sys) {
    NoSnapshotInPower(s.power) && NoSnapshotInThermal(s.thermal) && NoSnapshotInComms(s.comms)
  }

  lemma NoSnapshotInPowerStep(p: Power, t: Tid, pick: nat, safe: bool)
    requires NoSnapshotInPower(p)
    ensures NoSnapshotInPower(PowerNext(p, t, pick, safe))
  {
  }

  lemma NoSnapshotInThermalStep(p: Thermal, t: Tid, pick: nat)
    requires NoSnapshotInThermal(p)
    ensures NoSnapshotInThermal(ThermalNext(p, t, pick))
  {
  }

  lemma NoSnapshotInCommsStep(p: Comms, t: Tid, pick: nat, safe: bool)
    requires NoSnapshotInComms(p)
    ensures NoSnapshotInComms(CommsNext(p, t, pick, safe))
  {
  }

  lemma NoSnapshotWaitsStep(s: Sys, a: Action, after: Sys)
    requires Takes(s, a, after) && NoSnapshotWaits(s)
    ensures NoSnapshotWaits(after)
  {
    if a.Step? {
      NoSnapshotInPowerStep(s.power, a.t, a.pick, s.inbox[POWER_CHILD].safe);
      NoSnapshotInThermalStep(s.thermal, a.t, a.pick);
      NoSnapshotInCommsStep(s.comms, a.t, a.pick, s.inbox[COMMS_CHILD].safe);
    }
  }

  lemma {:induction false} NoSnapshotEverWaits(states: seq<Sys>, acts: seq<Action>, n: nat)
    requires Execution(states, acts) && n <= |acts|
    ensures NoSnapshotWaits(states[n])
  {
    for k := 0 to n
      invariant NoSnapshotWaits(states[k])
    {
      assert StepAt(states, acts, k);
      NoSnapshotWaitsStep(states[k], acts[k], states[k + 1]);
    }
  }

  // The downlink has unlocked its mutex at the end of a pass that was not cut short.
  predicate AtSnapshot(s: Sys, a: Action) {
    a.Step? && a.t == Downlink && s.comms.downlink.DnSnapshot?
  }

  lemma SnapshotStep(s: Sys, a: Action)
    requires NoSnapshotWaits(s)
    ensures AtSnapshot(s, a) && s.comms.elapsed % 30 == 0 ==>
              SentBy(s, a) == [Alert(COMMS, INFO, s.comms.downlink.sig, 0, PeriodicSnapshot)]
    ensures AtSnapshot(s, a) && s.comms.elapsed % 30 != 0 ==> SentBy(s, a) == []
    ensures !AtSnapshot(s, a) ==> forall alert <- SentBy(s, a) :: alert.text != PeriodicSnapshot
  {
  }

  // In every run, of the passes that come that far exactly every 30th sends a snapshot, an INFO from COMMS with
  // the present quality and threshold 0; and nothing else is ever sent as one.
  lemma SnapshotsArePeriodic(states: seq<Sys>, acts: seq<Action>, n: nat)
    requires Execution(states, acts) && n < |acts|
    ensures var s, pass := states[n], DownlinkPasses(states, acts, n);
            if acts[n].Step? && acts[n].t == Downlink && s.comms.downlink.DnSnapshot? then
              SentBy(s, acts[n])
              == if pass % 30 == 0 then [Alert(COMMS, INFO, s.comms.d.signal, 0, PeriodicSnapshot)] else []
            else forall alert <- SentBy(s, acts[n]) :: alert.text != PeriodicSnapshot
  {
    PassesAreCounted(states, acts, n);
    NoSnapshotEverWaits(states, acts, n);
    SignalsAreDrawn(states, acts, n);
    SnapshotStep(states[n], acts[n]);
  }

  // ----- the uplink -----

  // The command that action a reads from the FIFO, if it reads one.
  function OrdersBy(s: Sys, a: Action): seq<Command> {
    if a.Step? && a.t == Uplink && s.comms.uplink.UpAsleep? && FifoRead(a.pick).Some? then [FifoRead(a.pick).value]
    else []
  }

  function Orders(states: seq<Sys>, acts: seq<Action>, n: nat): seq<Command>
    requires n <= |acts| < |states|
  {
    if n == 0 then [] else Orders(states, acts, n - 1) + OrdersBy(states[n - 1], acts[n - 1])
  }

  function UplinkSends(s: Sys, a: Action): seq<Alert> {
    if a.Step? && a.t == Uplink && Sends(s, Uplink).Some? then [Sends(s, Uplink).value] else []
  }

  function UplinkSent(states: seq<Sys>, acts: seq<Action>, n: nat): seq<Alert>
    requires n <= |acts| < |states|
  {
    if n == 0 then [] else UplinkSent(states, acts, n - 1) + UplinkSends(states[n - 1], acts[n - 1])
  }

  // One alert for each SNAPSHOT, none for any other command.
  function AlertsFor(orders: seq<Command>): seq<Alert> {
    if orders == [] then []
    else
      AlertsFor(orders[..|orders| - 1])
      + (if orders[|orders| - 1] == SNAPSHOT then [Alert(COMMS, INFO, 0, 0, GroundSnapshot)] else [])
  }

  // The command that the uplink has read and not yet answered.
  function Unanswered(pc: UplinkPc): seq<Command> {
    match pc
    case UpLock(c) => if c.Some? then [c.value] else []
    case UpUnlock(c) => if c.Some? then [c.value] else []
    case UpDispatch(c) => [c]
    case _ => []
  }

  function Unsent(pc: UplinkPc): seq<Alert> {
    if pc.UpSend? then [pc.alert] else []
  }

  // Sent, about to be sent and called for by a command not yet answered: together one alert a SNAPSHOT.
  predicate Answers(orders: seq<Command>, sent: seq<Alert>, pc: UplinkPc) {
    sent + Unsent(pc) + AlertsFor(Unanswered(pc)) == AlertsFor(orders)
  }

  lemma AlertsForOne(c: Command)
    ensures AlertsFor([c]) == if c == SNAPSHOT then [Alert(COMMS, INFO, 0, 0, GroundSnapshot)] else []
  {
    assert [c][..0] == [];
  }

  lemma UplinkStep(p: Comms, pick: nat)
    ensures var pc, after := p.uplink, UplinkNext(p, pick).uplink;
            if pc.UpAsleep? then Unsent(pc) == Unsent(after) == [] && Unanswered(pc) == []
                                 && Unanswered(after) == (if FifoRead(pick).Some? then [FifoRead(pick).value] else [])
            else if pc.UpDispatch? then Unsent(pc) == [] && Unanswered(pc) == [pc.order] && Unanswered(after) == []
                                        && Unsent(after) == AlertsFor([pc.order])
            else if pc.UpSend? then Unsent(after) == [] && Unanswered(after) == Unanswered(pc) == []
            else Unsent(after) == Unsent(pc) && Unanswered(after) == Unanswered(pc)
  {
    if p.uplink.UpDispatch? {
      AlertsForOne(p.uplink.order);
    }
  }

  lemma OthersLeaveUplink(s: Sys, a: Action, after: Sys)
    requires Takes(s, a, after)
    ensures after.comms.uplink
            == if a.Step? && a.t == Uplink then UplinkNext(s.comms, a.pick).uplink else s.comms.uplink
  {
  }

  lemma AnswersStep(orders: seq<Command>, sent: seq<Alert>, s: Sys, a: Action, after: Sys)
    requires Takes(s, a, after) && Answers(orders, sent, s.comms.uplink)
    ensures Answers(orders + OrdersBy(s, a), sent + UplinkSends(s, a), after.comms.uplink)
  {
    OthersLeaveUplink(s, a, after);
    if a.Step? && a.t == Uplink {
      UplinkStep(s.comms, a.pick);
      if OrdersBy(s, a) != [] {
        var c := FifoRead(a.pick).value;
        AlertsForOne(c);
        assert (orders + [c])[..|orders|] == orders;
      } else {
        assert orders + OrdersBy(s, a) == orders;
      }
    } else {
      assert orders + OrdersBy(s, a) == orders && sent + UplinkSends(s, a) == sent;
    }
  }

  lemma AnswersAt(states: seq<Sys>, acts: seq<Action>, n: nat)
    requires Path(states, acts) && n < |acts|
    requires Answers(Orders(states, acts, n), UplinkSent(states, acts, n), states[n].comms.uplink)
    ensures Answers(Orders(states, acts, n + 1), UplinkSent(states, acts, n + 1), states[n + 1].comms.uplink)
  {
    assert StepAt(states, acts, n);
    AnswersStep(Orders(states, acts, n), UplinkSent(states, acts, n), states[n], acts[n], states[n + 1]);
  }

  lemma NothingOrderedYet()
    ensures Answers([], [], Init().comms.uplink)
  {
  }

  lemma {:induction false} AnswersHold(states: seq<Sys>, acts: seq<Action>, n: nat)
    requires Execution(states, acts) && n <= |acts|
    ensures Answers(Orders(states, acts, n), UplinkSent(states, acts, n), states[n].comms.uplink)
  {
    NothingOrderedYet();
    for k := 0 to n
      invariant Answers(Orders(states, acts, k), UplinkSent(states, acts, k), states[k].comms.uplink)
    {
      AnswersAt(states, acts, k);
    }
  }

  lemma RestingIsAnswered(orders: seq<Command>, sent: seq<Alert>, pc: UplinkPc)
    requires Answers(orders, sent, pc) && pc.UpAsleep?
    ensures sent == AlertsFor(orders)
  {
    assert sent + Unsent(pc) + AlertsFor(Unanswered(pc)) == sent;
  }

  // In every run the uplink sends exactly one alert for each SNAPSHOT it has read, and none for any other
  // command: sent, about to be sent and still to be decided together are what the commands call for.
  lemma UplinkAnswersSnapshots(states: seq<Sys>, acts: seq<Action>, n: nat)
    requires Execution(states, acts) && n <= |acts|
    ensures Answers(Orders(states, acts, n), UplinkSent(states, acts, n), states[n].comms.uplink)
    ensures states[n].comms.uplink.UpAsleep? ==> UplinkSent(states, acts, n) == AlertsFor(Orders(states, acts, n))
  {
    AnswersHold(states, acts, n);
    if states[n].comms.uplink.UpAsleep? {
      RestingIsAnswered(Orders(states, acts, n), UplinkSent(states, acts, n), states[n].comms.uplink);
    }
  }
}
