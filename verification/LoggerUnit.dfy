/**
 From a *_send_fault helper to the log: power/power.c, thermal/thermal.c and comms/comms.c fill a
 report, logger/logger.c decides whether to write it.
 */
module LoggerUnit {
  import opened Alerts
  import opened Records
  import opened FlightLog

  const CRITICAL_TEXT: seq<byte> := [67, 82, 73, 84, 73, 67, 65, 76]
  const WARNING_TEXT: seq<byte> := [87, 65, 82, 78, 73, 78, 71]
  const INFO_TEXT: seq<byte> := [73, 78, 70, 79]

  lemma SeveritiesAreSpelled()
    ensures CRITICAL_TEXT == Ascii("CRITICAL") && WARNING_TEXT == Ascii("WARNING") && INFO_TEXT == Ascii("INFO")
  {
  }

  // strcmp(report.severity, "CRITICAL") == 0
  predicate IsCritical(r: Report) {
    Text(r.severity) == CRITICAL_TEXT
  }

  // The body of power_send_fault(), thermal_send_fault() and comms_send_fault(), up to msgq_send(). The
  // priority is chosen from the severity as passed, the logger later looks at the field; they agree.
  method FillReport(subsystem: seq<byte>, severity: seq<byte>, value: seq<byte>, threshold: seq<byte>,
                    description: seq<byte>, timestamp: seq<byte>) returns (report: Report, priority: nat)
    requires |value| == |threshold| == 4
    requires IsText(subsystem) && IsText(severity) && IsText(description) && IsText(timestamp)
    ensures report.Valid()
    ensures Text(report.subsystem) == Truncated(subsystem, 16) && Text(report.severity) == Truncated(severity, 12)
    ensures Text(report.description) == Truncated(description, 64) && Text(report.timestamp) == Truncated(timestamp, 32)
    ensures report.value == value && report.threshold == threshold
    ensures report == FilledReport(subsystem, severity, value, threshold, description, timestamp)
    ensures priority == 9 <==> IsCritical(report)
    ensures priority == if severity == CRITICAL_TEXT then 9 else if severity == WARNING_TEXT then 5 else 1
  {
    report := Report(Zeros(16), Zeros(12), Zeros(4), Zeros(4), Zeros(64), Zeros(32));
    report := report.(subsystem := Field(subsystem, 16));
    report := report.(severity := Field(severity, 12));
    report := report.(description := Field(description, 64));
    report := report.(value := value);
    report := report.(threshold := threshold);
    report := report.(timestamp := Field(timestamp, 32));
    TextOfField(subsystem, 16);
    TextOfField(severity, 12);
    TextOfField(description, 64);
    TextOfField(timestamp, 32);
    priority := 1;
    if severity == CRITICAL_TEXT {
      priority := 9;
    } else if severity == WARNING_TEXT {
      priority := 5;
    }
  }

  // One pass of the logger's loop: g_safe_mode at the pause test, and the report that
  // mq_timedreceive() brings, if it does not time out.
  datatype Turn = Turn(safe: bool, arrival: Option<Report>)

  // A report is written if it arrives outside safe mode, or is CRITICAL.
  function Written(turn: Turn): seq<Report> {
    if turn.arrival.Some? && (!turn.safe || IsCritical(turn.arrival.value)) then [turn.arrival.value] else []
  }

  function Dropped(turn: Turn): seq<Report> {
    if turn.arrival.Some? && turn.safe && !IsCritical(turn.arrival.value) then [turn.arrival.value] else []
  }

  function Accepted(turns: seq<Turn>): seq<Report> {
    if turns == [] then []
    else Accepted(turns[..|turns| - 1]) + Written(turns[|turns| - 1])
  }

  function Skipped(turns: seq<Turn>): seq<Report> {
    if turns == [] then []
    else Skipped(turns[..|turns| - 1]) + Dropped(turns[|turns| - 1])
  }

  function Arrivals(turns: seq<Turn>): seq<Report> {
    if turns == [] then []
    else
      var turn := turns[|turns| - 1];
      Arrivals(turns[..|turns| - 1]) + (if turn.arrival.Some? then [turn.arrival.value] else [])
  }

  // From `before` written and `dropped` skipped, the turns have led to `written` and `skipped`.
  predicate Sorted(turns: seq<Turn>, before: seq<Report>, written: seq<Report>, dropped: seq<Report>,
                   skipped: seq<Report>) {
    written == before + Accepted(turns) && skipped == dropped + Skipped(turns)
  }

  lemma OneMoreTurn(turns: seq<Turn>, i: nat, before: seq<Report>, written: seq<Report>, dropped: seq<Report>,
                    skipped: seq<Report>)
    requires i < |turns| && Sorted(turns[..i], before, written, dropped, skipped)
    ensures Sorted(turns[..i + 1], before, written + Written(turns[i]), dropped, skipped + Dropped(turns[i]))
  {
    assert turns[..i + 1][..i] == turns[..i];
  }

  lemma TurnIsAccounted(turn: Turn)
    ensures Written(turn) + Dropped(turn) == (if turn.arrival.Some? then [turn.arrival.value] else [])
    ensures forall r <- Dropped(turn) :: !IsCritical(r)
    ensures !turn.safe ==> Dropped(turn) == []
  {
  }

  // Every report that arrives is written or dropped, and none that is dropped is CRITICAL.
  lemma {:induction false} EveryArrivalIsAccounted(turns: seq<Turn>)
    ensures multiset(Arrivals(turns)) == multiset(Accepted(turns)) + multiset(Skipped(turns))
    ensures forall r <- Skipped(turns) :: !IsCritical(r)
  {
    if turns == [] {
    } else {
      EveryArrivalIsAccounted(turns[..|turns| - 1]);
      TurnIsAccounted(turns[|turns| - 1]);
      assert multiset(Written(turns[|turns| - 1]) + Dropped(turns[|turns| - 1]))
          == multiset(Written(turns[|turns| - 1])) + multiset(Dropped(turns[|turns| - 1]));
    }
  }

  ghost predicate Deliverable(turns: seq<Turn>) {
    forall i | 0 <= i < |turns| && turns[i].arrival.Some? :: turns[i].arrival.value.Valid()
  }

  lemma {:induction false} AcceptedGrows(turns: seq<Turn>, i: nat)
    requires i <= |turns|
    ensures |Accepted(turns[..i])| <= |Accepted(turns)|
    decreases |turns| - i
  {
    if i == |turns| {
      assert turns[..i] == turns;
    } else {
      AcceptedGrows(turns, i + 1);
      assert turns[..i + 1][..i] == turns[..i];
    }
  }

  class LoggerProcess {
    const recorder: FlightRecorder
    var paused: bool
    var skipped: seq<Report>

    constructor (recorder: FlightRecorder)
      ensures this.recorder == recorder && !paused && skipped == []
    {
      this.recorder := recorder;
      paused, skipped := false, [];
    }

    method OnePass(turn: Turn, ghost written: seq<Report>)
      requires recorder.isOpen && (turn.arrival.Some? ==> turn.arrival.value.Valid())
      requires |written| + |Written(turn)| < 0x8000_0000 && IsLogOf(recorder.bytes, written)
      modifies this, recorder`bytes, recorder`pos
      ensures paused == turn.safe
      ensures IsLogOf(recorder.bytes, written + Written(turn))
      ensures skipped == old(skipped) + Dropped(turn)
      ensures turn.arrival.Some? && turn.safe && Text(turn.arrival.value.severity) != Ascii("CRITICAL") ==>
                recorder.bytes == old(recorder.bytes) && skipped == old(skipped) + [turn.arrival.value]
      ensures turn.arrival.Some? && (!turn.safe || Text(turn.arrival.value.severity) == Ascii("CRITICAL")) ==>
                IsLogOf(recorder.bytes, written + [turn.arrival.value]) && skipped == old(skipped)
      ensures turn.arrival.None? ==> recorder.bytes == old(recorder.bytes) && skipped == old(skipped)
    {
      SeveritiesAreSpelled();
      if turn.safe && !paused {
        paused := true;
      } else if !turn.safe && paused {
        paused := false;
      }
      if turn.arrival.Some? {
        var report := turn.arrival.value;
        if !paused || IsCritical(report) {
          recorder.Append(report, written);
        } else {
          skipped := skipped + [report];
        }
      } else {
        assert written + [] == written;
      }
    }

    method OpenLog(ghost before: seq<Report>)
      requires IsLogOf(recorder.bytes, before) || (recorder.bytes == [] && before == [])
      modifies recorder
      ensures recorder.isOpen && IsLogOf(recorder.bytes, before)
    {
      if before != [] {
        CountOfRendered(|before|, Numbered(before));
      }
      recorder.Open();
    }

    // main() of the logger: opens the log, then loops. The log that was there, or a new one, is extended
    // by exactly the accepted reports, in order of arrival.
    method MainLoop(turns: seq<Turn>, ghost before: seq<Report>)
      requires |before| + |Accepted(turns)| < 0x8000_0000 && Deliverable(turns)
      requires IsLogOf(recorder.bytes, before) || (recorder.bytes == [] && before == [])
      modifies this, recorder
      ensures IsLogOf(recorder.bytes, before + Accepted(turns))
      ensures skipped == old(skipped) + Skipped(turns)
    {
      OpenLog(before);
      ghost var written, dropped := before, skipped;
      var i := 0;
      while i < |turns|
        invariant 0 <= i <= |turns| && recorder.isOpen && IsLogOf(recorder.bytes, written)
        invariant Sorted(turns[..i], before, written, dropped, skipped)
      {
        OneMoreTurn(turns, i, before, written, dropped, skipped);
        AcceptedGrows(turns, i + 1);
        OnePass(turns[i], written);
        written := written + Written(turns[i]);
        i := i + 1;
      }
      assert turns[..i] == turns;
    }
  }
}
