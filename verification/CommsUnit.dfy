/** The comms process, one thread at a time: comms/comms.c and comms/comms_threads.c. */
module CommsUnit {
  import opened Alerts
  import opened Latch
  import opened CommsLink
  import opened Spacecraft
  import opened SharedMemory

  // One pass of downlink_thread: g_safe_mode as it reads it, and the two values rand() returns.
  datatype Turn = Turn(safe: bool, dropout: nat, signal: nat)

  // What pass number `pass` makes of the data, and the alerts it sends.
  function DownlinkPass(d: CommsData, pass: nat, turn: Turn): (CommsData, seq<Alert>) {
    if turn.safe then (d.(signal := 0), [])
    else
      var sig := SignalReading(turn.dropout % 20 == 0, turn.signal);
      var v := Judge(d.faultActive, SignalBand(sig));
      (CommsData(sig, v.fault),
       if v.report.Some? then [SignalAlert(v.report.value, sig)]
       else if pass % 30 == 0 then [Alert(COMMS, INFO, sig, 0, PeriodicSnapshot)]
       else [])
  }

  function DownlinkPasses(d: CommsData, first: nat, turns: seq<Turn>): (CommsData, seq<Alert>) {
    if turns == [] then (d, [])
    else
      var (before, sent) := DownlinkPasses(d, first, turns[..|turns| - 1]);
      var (after, alerts) := DownlinkPass(before, first + |turns|, turns[|turns| - 1]);
      (after, sent + alerts)
  }

  // The readings that the latch judges: the passes outside safe mode.
  function BandsJudged(turns: seq<Turn>): seq<Band> {
    if turns == [] then []
    else
      var turn := turns[|turns| - 1];
      BandsJudged(turns[..|turns| - 1])
      + (if turn.safe then [] else [BandOf(turn)])
  }

  function LatchAlerts(sent: seq<Alert>): seq<Severity> {
    if sent == [] then []
    else
      var a := sent[|sent| - 1];
      LatchAlerts(sent[..|sent| - 1]) + (if a.text == PeriodicSnapshot then [] else [a.severity])
  }

  lemma {:induction false} LatchAlertsAppend(s: seq<Alert>, t: seq<Alert>)
    requires |t| <= 1
    ensures LatchAlerts(s + t) == LatchAlerts(s) + LatchAlerts(t)
  {
    if t != [] {
      assert (s + t)[..|s|] == s && t[..0] == [];
    } else {
      assert s + t == s;
    }
  }

  lemma OneAlert(t: seq<Alert>)
    requires |t| <= 1
    ensures LatchAlerts(t) == if t == [] || t[0].text == PeriodicSnapshot then [] else [t[0].severity]
  {
    if t != [] {
      assert t[..0] == [];
    }
  }

  function BandOf(turn: Turn): Band {
    SignalBand(SignalReading(turn.dropout % 20 == 0, turn.signal))
  }

  lemma PassJudges(d: CommsData, pass: nat, turn: Turn)
    ensures var (after, alerts) := DownlinkPass(d, pass, turn);
            var v := Judge(d.faultActive, BandOf(turn));
            && |alerts| <= 1
            && after.faultActive == (if turn.safe then d.faultActive else v.fault)
            && LatchAlerts(alerts) == (if turn.safe || v.report.None? then [] else [v.report.value])
  {
    OneAlert(DownlinkPass(d, pass, turn).1);
  }

  lemma HistoryGrows(history: seq<Band>, band: Band)
    ensures var v := Judge(FaultAfter(history), band);
            && FaultAfter(history + [band]) == v.fault
            && ReportsOf(history + [band]) == ReportsOf(history) + (if v.report.None? then [] else [v.report.value])
  {
    assert (history + [band])[..|history|] == history;
  }

  // The latch and the alerts so far are those of a latch that has judged exactly `history`.
  predicate Reflects(d: CommsData, sent: seq<Alert>, history: seq<Band>) {
    d.faultActive == FaultAfter(history) && LatchAlerts(sent) == ReportsOf(history)
  }

  lemma ReflectsOneMore(d: CommsData, sent: seq<Alert>, history: seq<Band>, pass: nat, turn: Turn)
    requires Reflects(d, sent, history)
    ensures var (after, alerts) := DownlinkPass(d, pass, turn);
            Reflects(after, sent + alerts, history + (if turn.safe then [] else [BandOf(turn)]))
  {
    PassJudges(d, pass, turn);
    LatchAlertsAppend(sent, DownlinkPass(d, pass, turn).1);
    HistoryGrows(history, BandOf(turn));
    assert history + [] == history;
  }

  lemma PassesUnfold(d: CommsData, first: nat, turns: seq<Turn>)
    requires turns != []
    ensures var older, turn := turns[..|turns| - 1], turns[|turns| - 1];
            var (before, sent) := DownlinkPasses(d, first, older);
            var (after, alerts) := DownlinkPass(before, first + |turns|, turn);
            && DownlinkPasses(d, first, turns) == (after, sent + alerts)
            && BandsJudged(turns) == BandsJudged(older) + (if turn.safe then [] else [BandOf(turn)])
  {
  }

  predicate Hidden(first: nat, turns: seq<Turn>) {
    var (after, sent) := DownlinkPasses(INITIAL_COMMS, first, turns);
    Reflects(after, sent, BandsJudged(turns))
  }

  lemma HiddenOneMore(first: nat, turns: seq<Turn>)
    requires turns != [] && Hidden(first, turns[..|turns| - 1])
    ensures Hidden(first, turns)
  {
    var older, turn := turns[..|turns| - 1], turns[|turns| - 1];
    var (before, sent) := DownlinkPasses(INITIAL_COMMS, first, older);
    PassesUnfold(INITIAL_COMMS, first, turns);
    ReflectsOneMore(before, sent, BandsJudged(older), first + |turns|, turn);
  }

  // Safe mode suspends the detector and forgets nothing: apart from the snapshots, the alerts are those
  // of a latch that has judged only the readings taken outside safe mode, in that order.
  lemma {:induction false} SuspensionIsInvisible(first: nat, turns: seq<Turn>)
    ensures var (after, sent) := DownlinkPasses(INITIAL_COMMS, first, turns);
            Reflects(after, sent, BandsJudged(turns))
  {
    for i := 0 to |turns|
      invariant Hidden(first, turns[..i])
    {
      assert turns[..i + 1][..i] == turns[..i];
      HiddenOneMore(first, turns[..i + 1]);
    }
    assert turns[..|turns|] == turns;
  }

  predicate EndsEarly(fault: bool, turn: Turn) {
    turn.safe || Judge(fault, BandOf(turn)).report.Some?
  }

  // The steps of the system model that hold the mutex are one pass: one step in safe mode, or four. The
  // mode is read in the first of them.
  lemma PassIsItsSteps(p: Comms, turn: Turn, pick: nat, safe: bool)
    requires p.downlink.DnMode?
    ensures var (d, alerts) := DownlinkPass(p.d, p.elapsed, turn);
            var first := DownlinkNext(p, pick, turn.safe);
            if turn.safe then first == p.(d := d, downlink := DnUnlockRest) && alerts == []
            else
              var drawn := DownlinkNext(DownlinkNext(first, turn.dropout, safe), turn.signal, safe);
              var q := DownlinkNext(drawn, pick, safe);
              && q.d == d && q.mutex == p.mutex && q.elapsed == p.elapsed
              && (if EndsEarly(p.d.faultActive, turn) then |alerts| == 1 && q.downlink == DnUnlockSend(alerts[0])
                  else q.downlink == DnUnlock(d.signal))
  {
  }

  // A pass that does not end early sends its periodic snapshot, if it is time for one, and then shows the
  // quality on the bus.
  lemma RestOfPass(s: Sys, d: CommsData, turn: Turn)
    requires !EndsEarly(d.faultActive, turn)
    requires s.comms.downlink == DnUnlock(DownlinkPass(d, s.comms.elapsed, turn).0.signal)
    ensures var (after, alerts) := DownlinkPass(d, s.comms.elapsed, turn);
            var unlocked := s.(comms := DownlinkNext(s.comms, 0, turn.safe));
            var sent := unlocked.(comms := DownlinkNext(unlocked.comms, 0, turn.safe));
            var locked := sent.(comms := DownlinkNext(sent.comms, 0, turn.safe));
            && alerts == (if Sends(unlocked, Downlink).Some? then [Sends(unlocked, Downlink).value] else [])
            && BusNext(locked, Downlink) == s.bus.(signal := after.signal)
  {
  }

  // The command that a text stands for, by strcmp().
  function Meant(cmd: string): Command {
    if cmd == "STATUS" then STATUS
    else if cmd == "SAFE_MODE" then SAFE_MODE
    else if cmd == "SNAPSHOT" then SNAPSHOT
    else if cmd == "RESET_ADCS" then RESET_ADCS
    else UNKNOWN
  }

  // The dispatch of the system model: SNAPSHOT goes on to send its alert, STATUS to the semaphore, and every other
  // text to remembering the command.
  lemma DispatchIsByText(p: Comms, cmd: string, pick: nat)
    requires p.uplink == UpDispatch(Meant(cmd))
    ensures UplinkNext(p, pick).uplink
            == if cmd == "SNAPSHOT" then UpSend(Alert(COMMS, INFO, 0, 0, GroundSnapshot))
               else if cmd == "STATUS" then UpStatusSem
               else UpLastLock
  {
  }

  // From the data `start` after pass `first`, with `before` sent, the turns lead to d and sent.
  predicate ComesTo(start: CommsData, first: nat, before: seq<Alert>, turns: seq<Turn>, d: CommsData,
                    sent: seq<Alert>) {
    d == DownlinkPasses(start, first, turns).0 && sent == before + DownlinkPasses(start, first, turns).1
  }

  lemma OneMorePass(start: CommsData, first: nat, before: seq<Alert>, turns: seq<Turn>, i: nat, d: CommsData,
                    sent: seq<Alert>)
    requires i < |turns| && ComesTo(start, first, before, turns[..i], d, sent)
    ensures var (after, alerts) := DownlinkPass(d, first + i + 1, turns[i]);
            ComesTo(start, first, before, turns[..i + 1], after, sent + alerts)
  {
    assert turns[..i + 1][..i] == turns[..i];
    PassesUnfold(start, first, turns[..i + 1]);
  }

  class CommsProcess {
    var signal: int
    var faultActive: bool
    var uplinkActive: bool
    var lastCommand: string
    var elapsed: nat
    var sent: seq<Alert>
    // Signals sent to the OBC, which only sets variables that nothing reads.
    var signalled: seq<Command>

    function Data(): CommsData
      reads this
    {
      CommsData(signal, faultActive)
    }

    constructor ()
      ensures Data() == INITIAL_COMMS && uplinkActive && lastCommand == ""
      ensures elapsed == 0 && sent == [] && signalled == [] && signal == 90 && !faultActive
    {
      signal, faultActive, uplinkActive, lastCommand := 90, false, true, "";
      elapsed, sent, signalled := 0, [], [];
    }

    // The bus shows the new quality unless the pass ended early: in safe mode, or with an alert.
    method DownlinkPassOnce(turn: Turn, bus: TelemetryBus)
      modifies `signal, `faultActive, `elapsed, `sent, bus`signal
      ensures elapsed == old(elapsed) + 1
      ensures Data() == DownlinkPass(old(Data()), elapsed, turn).0
      ensures sent == old(sent) + DownlinkPass(old(Data()), elapsed, turn).1
      ensures bus.View()
              == old(bus.View()).(signal := if EndsEarly(old(faultActive), turn) then old(bus.signal) else signal)
      ensures turn.safe ==> signal == 0 && faultActive == old(faultActive)
      ensures turn.safe ==> sent == old(sent) && bus.signal == old(bus.signal)
      ensures !turn.safe && turn.dropout % 20 == 0 ==> signal == 5 + turn.signal % 20
      ensures !turn.safe && turn.dropout % 20 != 0 ==>
                signal == 60 + turn.signal % 40 && !faultActive
                && (forall a <- sent[|old(sent)|..] :: a.severity == INFO)
      ensures !turn.safe ==>
                if signal <= 10 && !old(faultActive) then
                  faultActive && sent == old(sent) + [Alert(COMMS, CRITICAL, signal, 10, LinkLost)]
                else if signal <= 30 && !old(faultActive) then
                  !faultActive && sent == old(sent) + [Alert(COMMS, WARNING, signal, 30, SignalDegraded)]
                else if signal > 30 && old(faultActive) then
                  !faultActive && sent == old(sent) + [Alert(COMMS, INFO, signal, 30, LinkRestored)]
                else if elapsed % 30 == 0 then
                  && faultActive == old(faultActive)
                  && sent == old(sent) + [Alert(COMMS, INFO, signal, 0, PeriodicSnapshot)]
                else faultActive == old(faultActive) && sent == old(sent)
      ensures !turn.safe ==> bus.signal == if (signal <= 30) == old(faultActive) then signal else old(bus.signal)
    {
      elapsed := elapsed + 1;
      if turn.safe {
        signal := 0;
        return;
      }
      if turn.dropout % 20 == 0 {
        signal := turn.signal % 20 + 5;
      } else {
        signal := turn.signal % 40 + 60;
      }
      var sig := signal;
      if sig <= SIGNAL_CRITICAL && !faultActive {
        faultActive := true;
        sent := sent + [Alert(COMMS, CRITICAL, sig, SIGNAL_CRITICAL, LinkLost)];
        return;
      } else if sig <= SIGNAL_WARNING && !faultActive {
        sent := sent + [Alert(COMMS, WARNING, sig, SIGNAL_WARNING, SignalDegraded)];
        return;
      } else if sig > SIGNAL_WARNING && faultActive {
        faultActive := false;
        sent := sent + [Alert(COMMS, INFO, sig, SIGNAL_WARNING, LinkRestored)];
        return;
      }
      if elapsed % 30 == 0 {
        sent := sent + [Alert(COMMS, INFO, sig, 0, PeriodicSnapshot)];
      }
      bus.signal := sig;
    }

    // One pass as the loop below needs it.
    method DownlinkTurn(turn: Turn, bus: TelemetryBus)
      modifies `signal, `faultActive, `elapsed, `sent, bus`signal
      ensures elapsed == old(elapsed) + 1
      ensures (Data(), sent) == (DownlinkPass(old(Data()), elapsed, turn).0,
                                 old(sent) + DownlinkPass(old(Data()), elapsed, turn).1)
    {
      DownlinkPassOnce(turn, bus);
    }

    // downlink_thread, for as many passes as there are turns.
    method DownlinkThread(turns: seq<Turn>, bus: TelemetryBus)
      modifies `signal, `faultActive, `elapsed, `sent, bus`signal
      ensures elapsed == old(elapsed) + |turns|
      ensures Data() == DownlinkPasses(old(Data()), old(elapsed), turns).0
      ensures sent == old(sent) + DownlinkPasses(old(Data()), old(elapsed), turns).1
    {
      ghost var start, first, before := Data(), elapsed, sent;
      var i := 0;
      while i < |turns|
        invariant 0 <= i <= |turns| && elapsed == first + i
        invariant ComesTo(start, first, before, turns[..i], Data(), sent)
      {
        OneMorePass(start, first, before, turns, i, Data(), sent);
        DownlinkTurn(turns[i], bus);
        i := i + 1;
      }
      assert turns[..i] == turns;
    }

    // comms_handle_command(): only SNAPSHOT sends an alert, only SAFE_MODE and RESET_ADCS signal the OBC,
    // and every command, known or not, is remembered.
    method HandleCommand(cmd: string)
      requires |cmd| < 32
      modifies `sent, `signalled, `lastCommand
      ensures sent == old(sent) + (if cmd == "SNAPSHOT" then [Alert(COMMS, INFO, 0, 0, GroundSnapshot)] else [])
      ensures signalled
              == old(signalled)
                 + (if cmd == "SAFE_MODE" then [SAFE_MODE] else if cmd == "RESET_ADCS" then [RESET_ADCS] else [])
      ensures lastCommand == cmd
    {
      if cmd == "STATUS" {
      } else if cmd == "SAFE_MODE" {
        signalled := signalled + [SAFE_MODE];
      } else if cmd == "SNAPSHOT" {
        sent := sent + [Alert(COMMS, INFO, 0, 0, GroundSnapshot)];
      } else if cmd == "RESET_ADCS" {
        signalled := signalled + [RESET_ADCS];
      }
      lastCommand := cmd;
    }

    // One pass of uplink_thread, with what the FIFO held.
    method UplinkPassOnce(read: Option<string>)
      requires read.Some? ==> |read.value| < 32
      modifies `uplinkActive, `sent, `signalled, `lastCommand
      ensures uplinkActive <==> read.Some?
      ensures read.None? ==> sent == old(sent) && signalled == old(signalled) && lastCommand == old(lastCommand)
      ensures read.Some? ==> lastCommand == read.value
      ensures |sent| > |old(sent)| <==> read == Some("SNAPSHOT")
    {
      if read.Some? {
        uplinkActive := true;
        HandleCommand(read.value);
      } else {
        uplinkActive := false;
      }
    }
  }
}
