/** End to end: the flight log that a run of the whole system leaves, read back byte by byte. */
module MissionLog {
  import opened Alerts
  import opened Records
  import opened FlightLog
  import opened Float32
  import opened LoggerUnit
  import opened Spacecraft
  import opened PlantRuns
  import opened Ledger

  // Whole numbers that a float carries exactly.
  predicate Carried(a: Alert) {
    0 <= a.value < 0x100_0000 && 0 <= a.threshold < 0x100_0000
  }

  predicate PowerCarries(p: Power) {
    p.battery.BatUnlockSend? || p.battery.BatSend? || p.battery.BatSendHeld? ==> Carried(p.battery.alert)
  }

  predicate ThermalCarries(p: Thermal) {
    && (p.sensor.SenUnlockSend? || p.sensor.SenSend? ==> Carried(p.sensor.alert))
    && (p.heater.HeatSendHeld? ==> Carried(p.heater.alert))
  }

  predicate CommsCarries(p: Comms) {
    && 0 <= p.d.signal < 100
    && (p.uplink.UpSend? ==> Carried(p.uplink.alert))
    && (p.downlink.DnUnlockSend? || p.downlink.DnSend? ==> Carried(p.downlink.alert))
    && (p.downlink.DnUnlock? || p.downlink.DnSnapshot? ==> 0 <= p.downlink.sig < 100)
  }

  ghost predicate AllCarried(s: seq<Alert>) {
    forall i | 0 <= i < |s| :: Carried(s[i])
  }

  ghost predicate CarryInv(s: Sys) {
    && PowerCarries(s.power) && ThermalCarries(s.thermal) && CommsCarries(s.comms)
    && AllCarried(s.queue) && AllCarried(InHand(s)) && AllCarried(s.logger.log)
  }

  lemma SourcesCarry(s: Sys, t: Tid, pick: nat, safe: bool)
    requires PowerCarries(s.power) && ThermalCarries(s.thermal) && CommsCarries(s.comms)
    requires PowerInv(s.power) && ThermalInv(s.thermal)
    ensures PowerCarries(PowerNext(s.power, t, pick, s.inbox[POWER_CHILD].safe))
        && ThermalCarries(ThermalNext(s.thermal, t, pick))
    ensures CommsCarries(CommsNext(s.comms, t, pick, safe))
    ensures Sends(s, t).Some? ==> Carried(Sends(s, t).value)
  {
  }

  lemma MovesCarry(hand: seq<Alert>, q: seq<Alert>, sent: seq<Alert>, handled: seq<Alert>, hand': seq<Alert>,
                   q': seq<Alert>)
    requires Moves(hand, q, sent, handled, hand', q') && AllCarried(hand) && AllCarried(q) && AllCarried(sent)
    ensures AllCarried(hand') && AllCarried(q') && AllCarried(handled)
  {
  }

  lemma CarryInvStep(s: Sys, a: Action, after: Sys)
    requires Takes(s, a, after) && CarryInv(s) && PowerInv(s.power) && ThermalInv(s.thermal)
    ensures CarryInv(after)
  {
    if a.Step? {
      SourcesCarry(s, a.t, a.pick, s.inbox[COMMS_CHILD].safe);
    }
    Movement(s, a);
    MovesCarry(InHand(s), s.queue, SentBy(s, a), HandledBy(s, a), InHand(after), after.queue);
    LogGrows(s, a, after);
  }

  lemma CarryInvAt(states: seq<Sys>, acts: seq<Action>, n: nat)
    requires Execution(states, acts) && n < |acts| && CarryInv(states[n])
    ensures CarryInv(states[n + 1])
  {
    assert StepAt(states, acts, n);
    PlantHolds(states, acts, n);
    CarryInvStep(states[n], acts[n], states[n + 1]);
  }

  lemma RunIsCarried(states: seq<Sys>, acts: seq<Action>, n: nat)
    requires Execution(states, acts) && n <= |acts|
    ensures CarryInv(states[n])
  {
    for k := 0 to n
      invariant CarryInv(states[k])
    {
      CarryInvAt(states, acts, k);
    }
  }

  // ----- alerts as reports -----

  function SourceText(s: Source): seq<byte> {
    match s
    case POWER => [80, 79, 87, 69, 82]
    case THERMAL => [84, 72, 69, 82, 77, 65, 76]
    case COMMS => [67, 79, 77, 77, 83]
  }

  function SeverityText(v: Severity): seq<byte> {
    match v
    case CRITICAL => CRITICAL_TEXT
    case WARNING => WARNING_TEXT
    case INFO => INFO_TEXT
  }

  lemma NamesAreSpelled()
    ensures SourceText(POWER) == Ascii("POWER") && SourceText(THERMAL) == Ascii("THERMAL")
    ensures SourceText(COMMS) == Ascii("COMMS")
    ensures SeverityText(CRITICAL) == Ascii("CRITICAL") && SeverityText(WARNING) == Ascii("WARNING")
    ensures SeverityText(INFO) == Ascii("INFO")
  {
  }

  // The descriptions of the call sites, and the time stamps of the reports that are logged, as C strings
  // that fit their fields.
  ghost predicate Strings(words: Wording -> seq<byte>, stamps: nat -> seq<byte>) {
    && (forall w :: IsText(words(w)) && |words(w)| < 64)
    && (forall i :: IsText(stamps(i)) && |stamps(i)| < 32)
  }

  // A call of one of the *_send_fault helpers: the report is that of the alert, and the priority with which it is
  // sent is the one by which the queue of the system model orders it.
  method SendFault(a: Alert, words: Wording -> seq<byte>, stamp: seq<byte>) returns (report: Report, priority: nat)
    requires Carried(a) && IsText(words(a.text)) && |words(a.text)| < 64 && IsText(stamp) && |stamp| < 32
    ensures report == ReportOf(a, words, stamp) && priority == Priority(a)
    ensures priority == match a.severity case CRITICAL => 9 case WARNING => 5 case INFO => 1
  {
    NamesAreSpelled();
    report, priority := FillReport(SourceText(a.source), SeverityText(a.severity), Float(a.value), Float(a.threshold),
                                   words(a.text), stamp);
  }

  function ReportOf(a: Alert, words: Wording -> seq<byte>, stamp: seq<byte>): Report
    requires Carried(a)
  {
    FilledReport(SourceText(a.source), SeverityText(a.severity), Float(a.value), Float(a.threshold), words(a.text),
        stamp)
  }

  lemma ReportOfIsValid(a: Alert, words: Wording -> seq<byte>, stamp: seq<byte>)
    requires Carried(a) && IsText(words(a.text)) && |words(a.text)| < 64 && IsText(stamp) && |stamp| < 32
    ensures var r := ReportOf(a, words, stamp);
            && r.Valid() && Text(r.subsystem) == SourceText(a.source) && Text(r.severity) == SeverityText(a.severity)
            && r.value == Float(a.value) && r.threshold == Float(a.threshold)
            && Text(r.description) == words(a.text) && Text(r.timestamp) == stamp
            && (IsCritical(r) <==> a.severity == CRITICAL)
  {
    TextOfField(SourceText(a.source), 16);
    TextOfField(SeverityText(a.severity), 12);
    TextOfField(words(a.text), 64);
    TextOfField(stamp, 32);
  }

  ghost function ReportsOf(log: seq<Alert>, words: Wording -> seq<byte>, stamps: nat -> seq<byte>): (r: seq<Report>)
    requires AllCarried(log)
    ensures |r| == |log|
  {
    seq(|log|, i requires 0 <= i < |log| => ReportOf(log[i], words, stamps(i)))
  }

  lemma ReportsGrow(log: seq<Alert>, a: Alert, words: Wording -> seq<byte>, stamps: nat -> seq<byte>)
    requires AllCarried(log) && Carried(a)
    ensures AllCarried(log + [a])
    ensures ReportsOf(log + [a], words, stamps) == ReportsOf(log, words, stamps) + [ReportOf(a, words, stamps(|log|))]
  {
  }

  // ----- the logger process and the logger thread of the system -----

  // Three steps of the system model are one pass of the logger's loop, or two when the receive times out:
  // the alert goes into the log exactly if the pass writes its report.
  lemma PassIsItsSteps(l: LoggerState, q: seq<Alert>, safe: bool, later: bool, report: Report)
    requires l.pc.LgTop? && (q != [] ==> (IsCritical(report) <==> q[0].severity == CRITICAL))
    ensures var received := LoggerNext(LoggerNext(l, Logger, q, safe), Logger, q, later);
            if q == [] then received == l.(paused := safe)
            else
              var after := LoggerNext(received, Logger, q[1..], later);
              var turn := Turn(safe, Some(report));
              && after.pc.LgTop? && after.paused == safe
              && (if Written(turn) == [report] then after.log == l.log + [q[0]]
                  else Dropped(turn) == [report] && after.log == l.log)
  {
  }

  // ----- the file of a run -----

  // The file after the first n actions: `start` is what fdr_open() left, and fdr_write_entry() is called in
  // every step of the logger that logs an alert.
  ghost function FileAt(start: seq<byte>, states: seq<Sys>, acts: seq<Action>, words: Wording -> seq<byte>,
                        stamps: nat -> seq<byte>, n: nat): (file: seq<byte>)
    requires Execution(states, acts) && n <= |acts| && |start| >= HEADER_SIZE && Strings(words, stamps)
    ensures |file| >= HEADER_SIZE
  {
    if n == 0 then start
    else
      var file := FileAt(start, states, acts, words, stamps, n - 1);
      var s := states[n - 1];
      if Handles(s, acts[n - 1]) && Logs(s.logger, s.logger.pc.alert) then
        RunIsCarried(states, acts, n - 1);
        var a := InHand(s)[0];
        ReportOfIsValid(a, words, stamps(|s.logger.log|));
        WithEntry(file, CountOf(file), ReportOf(a, words, stamps(|s.logger.log|)))
      else file
  }

  // The file is the log of the reports that were there before the run and those of the alerts logged in it.
  ghost predicate Keeps(file: seq<byte>, before: seq<Report>, log: seq<Alert>, words: Wording -> seq<byte>,
                        stamps: nat -> seq<byte>) {
    AllCarried(log) && (|before| + |log| < 0x8000_0000 ==> IsLogOf(file, before + ReportsOf(log, words, stamps)))
  }

  lemma KeepsOneMore(file: seq<byte>, before: seq<Report>, log: seq<Alert>, a: Alert, words: Wording -> seq<byte>,
                     stamps: nat -> seq<byte>)
    requires Keeps(file, before, log, words, stamps) && Carried(a) && Strings(words, stamps) && |file| >= HEADER_SIZE
    requires ReportOf(a, words, stamps(|log|)).Valid()
    ensures Keeps(WithEntry(file, CountOf(file), ReportOf(a, words, stamps(|log|))), before, log + [a], words, stamps)
  {
    var report, reports := ReportOf(a, words, stamps(|log|)), before + ReportsOf(log, words, stamps);
    ReportsGrow(log, a, words, stamps);
    assert before + ReportsOf(log + [a], words, stamps) == reports + [report];
    if |before| + |log| + 1 < 0x8000_0000 {
      LogWithEntry(file, reports, report);
    }
  }

  lemma KeepsStep(start: seq<byte>, before: seq<Report>, states: seq<Sys>, acts: seq<Action>,
                  words: Wording -> seq<byte>, stamps: nat -> seq<byte>, n: nat)
    requires Execution(states, acts) && n < |acts| && |start| >= HEADER_SIZE && Strings(words, stamps)
    requires Keeps(FileAt(start, states, acts, words, stamps, n), before, states[n].logger.log, words, stamps)
    ensures Keeps(FileAt(start, states, acts, words, stamps, n + 1), before, states[n + 1].logger.log, words, stamps)
  {
    var s := states[n];
    assert StepAt(states, acts, n);
    LogGrows(s, acts[n], states[n + 1]);
    if Handles(s, acts[n]) && Logs(s.logger, s.logger.pc.alert) {
      RunIsCarried(states, acts, n);
      var a := InHand(s)[0];
      ReportOfIsValid(a, words, stamps(|s.logger.log|));
      KeepsOneMore(FileAt(start, states, acts, words, stamps, n), before, s.logger.log, a, words, stamps);
    }
  }

  lemma KeepsNothing(start: seq<byte>, before: seq<Report>, words: Wording -> seq<byte>, stamps: nat -> seq<byte>)
    requires IsLogOf(start, before)
    ensures Keeps(start, before, [], words, stamps)
  {
    assert before + ReportsOf([], words, stamps) == before;
  }

  // In every run the file calls produce exactly the log of the alerts that the logger has logged.
  lemma FileIsLog(start: seq<byte>, before: seq<Report>, states: seq<Sys>, acts: seq<Action>,
                  words: Wording -> seq<byte>, stamps: nat -> seq<byte>, n: nat)
    requires Execution(states, acts) && n <= |acts| && Strings(words, stamps)
    requires IsLogOf(start, before)
    ensures Keeps(FileAt(start, states, acts, words, stamps, n), before, states[n].logger.log, words, stamps)
  {
    KeepsNothing(start, before, words, stamps);
    for k := 0 to n
      invariant Keeps(FileAt(start, states, acts, words, stamps, k), before, states[k].logger.log, words, stamps)
    {
      KeepsStep(start, before, states, acts, words, stamps, k);
    }
  }

  predicate ReadsAs(e: Decoded, a: Alert, words: Wording -> seq<byte>, stamp: seq<byte>) {
    && e.subsystem == SourceText(a.source) && e.severity == SeverityText(a.severity)
    && |e.value| == |e.threshold| == 4 && FromFloat(e.value) == a.value && FromFloat(e.threshold) == a.threshold
    && e.description == words(a.text) && e.timestamp == stamp
  }

  lemma ReportReadsAs(e: Decoded, id: nat, a: Alert, words: Wording -> seq<byte>, stamp: seq<byte>)
    requires Carried(a) && IsText(words(a.text)) && |words(a.text)| < 64 && IsText(stamp) && |stamp| < 32
    requires Tells(e, id, ReportOf(a, words, stamp))
    ensures e.id == id && ReadsAs(e, a, words, stamp)
  {
    ReportOfIsValid(a, words, stamp);
    FloatRoundTrip(a.value);
    FloatRoundTrip(a.threshold);
  }

  lemma LaterTells(file: seq<byte>, before: seq<Report>, reports: seq<Report>, k: nat)
    requires IsLogOf(file, before + reports) && k < |reports|
    ensures |file| == HEADER_SIZE + ENTRY_SIZE * (|before| + |reports|) && CountOf(file) == |before| + |reports|
    ensures |file| >= HEADER_SIZE + ENTRY_SIZE * (|before| + k + 1)
    ensures Tells(EntryAt(file, |before| + k), |before| + k + 1, reports[k])
  {
    assert (before + reports)[|before| + k] == reports[k];
    FileReadsBack(file, before + reports, |before| + k);
  }

  lemma KeptTells(file: seq<byte>, before: seq<Report>, log: seq<Alert>, words: Wording -> seq<byte>,
                  stamps: nat -> seq<byte>, k: nat)
    requires Keeps(file, before, log, words, stamps) && k < |log| && |before| + |log| < 0x8000_0000
    ensures |file| == HEADER_SIZE + ENTRY_SIZE * (|before| + |log|) && CountOf(file) == |before| + |log|
    ensures |file| >= HEADER_SIZE + ENTRY_SIZE * (|before| + k + 1)
    ensures Tells(EntryAt(file, |before| + k), |before| + k + 1, ReportsOf(log, words, stamps)[k])
  {
    LaterTells(file, before, ReportsOf(log, words, stamps), k);
  }

  // What an entry that reads as an alert spells.
  lemma EntrySpells(e: Decoded, a: Alert, words: Wording -> seq<byte>, stamp: seq<byte>)
    requires ReadsAs(e, a, words, stamp)
    ensures a.source == POWER ==> e.subsystem == Ascii("POWER")
    ensures a.source == THERMAL ==> e.subsystem == Ascii("THERMAL")
    ensures a.source == COMMS ==> e.subsystem == Ascii("COMMS")
    ensures a.severity == CRITICAL ==> e.severity == Ascii("CRITICAL")
    ensures a.severity == WARNING ==> e.severity == Ascii("WARNING")
    ensures a.severity == INFO ==> e.severity == Ascii("INFO")
  {
    NamesAreSpelled();
  }

  // The file holds `earlier` entries and then those of the log, counts them all, and its entry for the k-th
  // alert of the log has the next id and reads as that alert.
  ghost predicate FileTells(file: seq<byte>, earlier: nat, log: seq<Alert>, k: nat, words: Wording -> seq<byte>,
                            stamps: nat -> seq<byte>)
    requires k < |log|
  {
    && |file| == HEADER_SIZE + ENTRY_SIZE * (earlier + |log|) && CountOf(file) == earlier + |log|
    && |file| >= HEADER_SIZE + ENTRY_SIZE * (earlier + k + 1)
    && EntryAt(file, earlier + k).id == earlier + k + 1
    && ReadsAs(EntryAt(file, earlier + k), log[k], words, stamps(k))
  }

  // In every run the file has one entry for each alert logged, in order, behind the entries that were
  // there before; the ids count on, and strings and floats of the k-th read back as the k-th alert's.
  lemma LogReadsBackAsAlerts(start: seq<byte>, before: seq<Report>, states: seq<Sys>, acts: seq<Action>,
                             words: Wording -> seq<byte>, stamps: nat -> seq<byte>, n: nat, k: nat)
    requires Execution(states, acts) && n <= |acts| && Strings(words, stamps)
    requires IsLogOf(start, before)
    requires k < |states[n].logger.log| && |before| + |states[n].logger.log| < 0x8000_0000
    ensures FileTells(FileAt(start, states, acts, words, stamps, n), |before|, states[n].logger.log, k, words, stamps)
  {
    FileIsLog(start, before, states, acts, words, stamps, n);
    var file, log := FileAt(start, states, acts, words, stamps, n), states[n].logger.log;
    KeptTells(file, before, log, words, stamps, k);
    ReportReadsAs(EntryAt(file, |before| + k), |before| + k + 1, log[k], words, stamps(k));
  }
}
