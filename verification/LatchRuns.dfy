/**
 The three latches at work in the running system: whatever the interleaving, what the battery, sensor
 and downlink threads report is a function of the readings that each has judged.
 */
module LatchRuns {
  import opened Alerts
  import opened Latch
  import opened PowerPlant
  import opened ThermalPlant
  import opened CommsLink
  import opened Spacecraft

  datatype Detector = BatteryDetector | CpuDetector | SignalDetector

  function FaultOf(d: Detector, s: Sys): bool {
    match d
    case BatteryDetector => s.power.d.faultActive
    case CpuDetector => s.thermal.d.faultActive
    case SignalDetector => s.comms.d.faultActive
  }

  // The reading that action a judges, if it judges one.
  function JudgedBy(d: Detector, s: Sys, a: Action): seq<int> {
    match d
    case BatteryDetector =>
      if a.Step? && a.t == Battery && s.power.battery.BatJudge? then [s.power.d.batteryPct] else []
    case CpuDetector =>
      if a.Step? && a.t == Sensor && s.thermal.sensor.SenJudge? then [s.thermal.d.cpu] else []
    case SignalDetector =>
      if a.Step? && a.t == Downlink && s.comms.downlink.DnJudge? then [s.comms.d.signal] else []
  }

  // The alert of the latch that action a puts into the queue: not the periodic snapshots.
  function ReportedBy(d: Detector, s: Sys, a: Action): seq<Alert> {
    if !a.Step? then []
    else
      match d
      case BatteryDetector =>
        if a.t == Battery && Sends(s, Battery).Some? then [Sends(s, Battery).value] else []
      case CpuDetector =>
        if a.t == Sensor && Sends(s, Sensor).Some? then [Sends(s, Sensor).value] else []
      case SignalDetector =>
        if a.t == Downlink && s.comms.downlink.DnSend? && Sends(s, Downlink).Some?
        then [Sends(s, Downlink).value] else []
  }

  // An alert decided on and not yet sent.
  function BatteryUnsent(pc: BatteryPc): seq<Alert> {
    if pc.BatUnlockSend? || pc.BatSend? || pc.BatSendHeld? then [pc.alert] else []
  }

  function CpuUnsent(pc: SensorPc): seq<Alert> {
    if pc.SenUnlockSend? || pc.SenSend? then [pc.alert] else []
  }

  function SignalUnsent(pc: DownlinkPc): seq<Alert> {
    if pc.DnUnlockSend? || pc.DnSend? then [pc.alert] else []
  }

  function UnsentBy(d: Detector, s: Sys): seq<Alert> {
    match d
    case BatteryDetector => BatteryUnsent(s.power.battery)
    case CpuDetector => CpuUnsent(s.thermal.sensor)
    case SignalDetector => SignalUnsent(s.comms.downlink)
  }

  function Judged(d: Detector, states: seq<Sys>, acts: seq<Action>, n: nat): seq<int>
    requires n <= |acts| < |states|
  {
    if n == 0 then [] else Judged(d, states, acts, n - 1) + JudgedBy(d, states[n - 1], acts[n - 1])
  }

  function Reported(d: Detector, states: seq<Sys>, acts: seq<Action>, n: nat): seq<Alert>
    requires n <= |acts| < |states|
  {
    if n == 0 then [] else Reported(d, states, acts, n - 1) + ReportedBy(d, states[n - 1], acts[n - 1])
  }

  // ----- the alerts that a history of readings calls for, by the numbers -----

  function BandOf(d: Detector, reading: int): Band {
    match d
    case BatteryDetector => if reading <= 10 then Severe else if reading <= 20 then Marginal else Nominal
    case CpuDetector => if reading >= 95 then Severe else if reading >= 85 then Marginal else Nominal
    case SignalDetector => if reading <= 10 then Severe else if reading <= 30 then Marginal else Nominal
  }

  function BandsOf(d: Detector, readings: seq<int>): seq<Band> {
    seq(|readings|, i requires 0 <= i < |readings| => BandOf(d, readings[i]))
  }

  function AlertFor(d: Detector, report: Option<Severity>, reading: int): seq<Alert> {
    if report.None? then []
    else
      match d
      case BatteryDetector => (
        match report.value
        case CRITICAL => [Alert(POWER, CRITICAL, reading, 10, BatteryCriticallyLow)]
        case WARNING => [Alert(POWER, WARNING, reading, 20, BatteryLow)]
        case INFO => [Alert(POWER, INFO, reading, 20, BatteryRecovered)])
      case CpuDetector => (
        match report.value
        case CRITICAL => [Alert(THERMAL, CRITICAL, reading, 95, CpuOverheat)]
        case WARNING => [Alert(THERMAL, WARNING, reading, 85, CpuElevated)]
        case INFO => [Alert(THERMAL, INFO, reading, 85, CpuNormal)])
      case SignalDetector => (
        match report.value
        case CRITICAL => [Alert(COMMS, CRITICAL, reading, 10, LinkLost)]
        case WARNING => [Alert(COMMS, WARNING, reading, 30, SignalDegraded)]
        case INFO => [Alert(COMMS, INFO, reading, 30, LinkRestored)])
  }

  ghost function AlertsOf(d: Detector, readings: seq<int>): seq<Alert> {
    if readings == [] then []
    else
      var older, reading := readings[..|readings| - 1], readings[|readings| - 1];
      AlertsOf(d, older) + AlertFor(d, ReportFor(BandsOf(d, older), BandOf(d, reading)), reading)
  }

  function SeveritiesOf(alerts: seq<Alert>): seq<Severity> {
    seq(|alerts|, i requires 0 <= i < |alerts| => alerts[i].severity)
  }

  lemma BandsGrow(d: Detector, readings: seq<int>, reading: int)
    ensures BandsOf(d, readings + [reading]) == BandsOf(d, readings) + [BandOf(d, reading)]
    ensures FaultAfter(BandsOf(d, readings + [reading]))
        == Judge(FaultAfter(BandsOf(d, readings)), BandOf(d, reading)).fault
    ensures ReportsOf(BandsOf(d, readings + [reading]))
            == ReportsOf(BandsOf(d, readings))
               + AsReport(Judge(FaultAfter(BandsOf(d, readings)), BandOf(d, reading)).report)
  {
    assert BandsOf(d, readings + [reading]) == BandsOf(d, readings) + [BandOf(d, reading)];
    assert (BandsOf(d, readings) + [BandOf(d, reading)])[..|readings|] == BandsOf(d, readings);
  }

  lemma AlertsGrow(d: Detector, readings: seq<int>, reading: int)
    ensures AlertsOf(d, readings + [reading])
            == AlertsOf(d, readings)
               + AlertFor(d, Judge(FaultAfter(BandsOf(d, readings)), BandOf(d, reading)).report, reading)
  {
    assert (readings + [reading])[..|readings|] == readings;
    LatchRefinesHistory(BandsOf(d, readings), BandOf(d, reading));
  }

  function AsReport(r: Option<Severity>): seq<Severity> {
    if r.Some? then [r.value] else []
  }

  lemma SeveritiesAppend(d: Detector, alerts: seq<Alert>, report: Option<Severity>, reading: int)
    ensures SeveritiesOf(alerts + AlertFor(d, report, reading)) == SeveritiesOf(alerts) + AsReport(report)
  {
  }

  lemma {:induction false} SeveritiesAreReports(d: Detector, readings: seq<int>)
    ensures SeveritiesOf(AlertsOf(d, readings)) == ReportsOf(BandsOf(d, readings))
  {
    if readings == [] {
      assert BandsOf(d, readings) == [];
    } else {
      var older, reading := readings[..|readings| - 1], readings[|readings| - 1];
      SeveritiesAreReports(d, older);
      BandsGrow(d, older, reading);
      AlertsGrow(d, older, reading);
      SeveritiesAppend(d, AlertsOf(d, older), Judge(FaultAfter(BandsOf(d, older)), BandOf(d, reading)).report, reading);
      assert readings == older + [reading];
    }
  }

  // ----- one step -----

  ghost predicate Accounts(d: Detector, readings: seq<int>, sent: seq<Alert>, s: Sys) {
    FaultOf(d, s) == FaultAfter(BandsOf(d, readings)) && sent + UnsentBy(d, s) == AlertsOf(d, readings)
  }

  // One step: the latch judges a reading, sends what it decided, or does neither.
  predicate StepsLatch(d: Detector, judged: seq<int>, reported: seq<Alert>, fault: bool, unsent: seq<Alert>,
                       fault': bool, unsent': seq<Alert>) {
    if judged == [] then fault' == fault && reported + unsent' == unsent
    else
      var v := Judge(fault, BandOf(d, judged[0]));
      |judged| == 1 && reported == [] && unsent == [] && fault' == v.fault
          && unsent' == AlertFor(d, v.report, judged[0])
  }

  lemma BatteryLatch(p: Power, pick: nat)
    ensures var pc, q := p.battery, BatteryNext(p, pick);
            StepsLatch(BatteryDetector, if pc.BatJudge? then [p.d.batteryPct] else [],
                       if pc.BatSend? || pc.BatSendHeld? then [pc.alert] else [],
                       p.d.faultActive, BatteryUnsent(pc), q.d.faultActive, BatteryUnsent(q.battery))
  {
  }

  lemma CpuLatch(p: Thermal, pick: nat)
    ensures var pc, q := p.sensor, SensorNext(p, pick);
            StepsLatch(CpuDetector, if pc.SenJudge? then [p.d.cpu] else [], if pc.SenSend? then [pc.alert] else [],
                       p.d.faultActive, CpuUnsent(pc), q.d.faultActive, CpuUnsent(q.sensor))
  {
  }

  lemma SignalLatch(p: Comms, pick: nat, safe: bool)
    ensures var pc, q := p.downlink, DownlinkNext(p, pick, safe);
            StepsLatch(SignalDetector, if pc.DnJudge? then [p.d.signal] else [], if pc.DnSend? then [pc.alert] else [],
                       p.d.faultActive, SignalUnsent(pc), q.d.faultActive, SignalUnsent(q.downlink))
  {
  }

  // Only the thread that runs it touches a latch.
  lemma OthersLeaveLatch(s: Sys, a: Action, after: Sys)
    requires Takes(s, a, after)
    ensures !(a.Step? && a.t == Battery) ==>
              after.power.d.faultActive == s.power.d.faultActive && after.power.battery == s.power.battery
    ensures !(a.Step? && a.t == Sensor) ==>
              after.thermal.d.faultActive == s.thermal.d.faultActive && after.thermal.sensor == s.thermal.sensor
    ensures !(a.Step? && a.t == Downlink) ==>
              after.comms.d.faultActive == s.comms.d.faultActive && after.comms.downlink == s.comms.downlink
  {
  }

  lemma DetectorStep(d: Detector, s: Sys, a: Action, after: Sys)
    requires Takes(s, a, after)
    ensures StepsLatch(d, JudgedBy(d, s, a), ReportedBy(d, s, a), FaultOf(d, s), UnsentBy(d, s),
                       FaultOf(d, after), UnsentBy(d, after))
  {
    OthersLeaveLatch(s, a, after);
    if a.Step? && a.t == Battery {
      BatteryLatch(s.power, a.pick);
    } else if a.Step? && a.t == Sensor {
      CpuLatch(s.thermal, a.pick);
    } else if a.Step? && a.t == Downlink {
      SignalLatch(s.comms, a.pick, s.inbox[COMMS_CHILD].safe);
    }
  }

  lemma AccountsStep(d: Detector, readings: seq<int>, sent: seq<Alert>, s: Sys, a: Action, after: Sys)
    requires Takes(s, a, after) && Accounts(d, readings, sent, s)
    ensures Accounts(d, readings + JudgedBy(d, s, a), sent + ReportedBy(d, s, a), after)
  {
    DetectorStep(d, s, a, after);
    AccountsOneMore(d, readings, sent, s, after, JudgedBy(d, s, a), ReportedBy(d, s, a));
  }

  lemma AccountsOneMore(d: Detector, readings: seq<int>, sent: seq<Alert>, s: Sys, after: Sys, judged: seq<int>,
                        reported: seq<Alert>)
    requires Accounts(d, readings, sent, s)
    requires StepsLatch(d, judged, reported, FaultOf(d, s), UnsentBy(d, s), FaultOf(d, after), UnsentBy(d, after))
    ensures Accounts(d, readings + judged, sent + reported, after)
  {
    if judged == [] {
      assert readings + judged == readings;
      assert sent + reported + UnsentBy(d, after) == sent + (reported + UnsentBy(d, after));
    } else {
      assert judged == [judged[0]];
      BandsGrow(d, readings, judged[0]);
      AlertsGrow(d, readings, judged[0]);
    }
  }

  lemma AccountsAt(d: Detector, states: seq<Sys>, acts: seq<Action>, n: nat)
    requires Path(states, acts) && n < |acts|
    requires Accounts(d, Judged(d, states, acts, n), Reported(d, states, acts, n), states[n])
    ensures Accounts(d, Judged(d, states, acts, n + 1), Reported(d, states, acts, n + 1), states[n + 1])
  {
    assert StepAt(states, acts, n);
    AccountsStep(d, Judged(d, states, acts, n), Reported(d, states, acts, n), states[n], acts[n], states[n + 1]);
  }

  lemma NothingJudgedYet(d: Detector)
    ensures Accounts(d, [], [], Init())
  {
    assert BandsOf(d, []) == [];
  }

  // In every run, and for each of the three latches: fault_active says whether a critical reading has
  // been judged since the last nominal one; the alerts sent, with the one about to be sent, are those
  // that the readings judged call for, with their values and thresholds; and their severities have the
  // shape (WARNING* CRITICAL INFO)*.
  lemma LatchFollowsReadings(d: Detector, states: seq<Sys>, acts: seq<Action>, n: nat)
    requires Execution(states, acts) && n <= |acts|
    ensures FaultOf(d, states[n]) <==> SevereSinceNominal(BandsOf(d, Judged(d, states, acts, n)))
    ensures Reported(d, states, acts, n) + UnsentBy(d, states[n]) == AlertsOf(d, Judged(d, states, acts, n))
    ensures WellShaped(SeveritiesOf(Reported(d, states, acts, n) + UnsentBy(d, states[n])))
  {
    NothingJudgedYet(d);
    for k := 0 to n
      invariant Accounts(d, Judged(d, states, acts, k), Reported(d, states, acts, k), states[k])
    {
      AccountsAt(d, states, acts, k);
    }
    var readings := Judged(d, states, acts, n);
    LatchRefinesHistory(BandsOf(d, readings), Nominal);
    SeveritiesAreReports(d, readings);
    ReportsAreWellShaped(BandsOf(d, readings));
  }

  // Source, threshold, range of values and wording of an alert go with its severity.
  predicate Fits(d: Detector, a: Alert) {
    match d
    case BatteryDetector => (
      && a.source == POWER
      && (a.severity == CRITICAL ==> a.value <= 10 && a.threshold == 10 && a.text == BatteryCriticallyLow)
      && (a.severity == WARNING ==> 10 < a.value <= 20 && a.threshold == 20 && a.text == BatteryLow)
      && (a.severity == INFO ==> a.value > 20 && a.threshold == 20 && a.text == BatteryRecovered))
    case CpuDetector => (
      && a.source == THERMAL
      && (a.severity == CRITICAL ==> a.value >= 95 && a.threshold == 95 && a.text == CpuOverheat)
      && (a.severity == WARNING ==> 85 <= a.value < 95 && a.threshold == 85 && a.text == CpuElevated)
      && (a.severity == INFO ==> a.value < 85 && a.threshold == 85 && a.text == CpuNormal))
    case SignalDetector => (
      && a.source == COMMS
      && (a.severity == CRITICAL ==> a.value <= 10 && a.threshold == 10 && a.text == LinkLost)
      && (a.severity == WARNING ==> 10 < a.value <= 30 && a.threshold == 30 && a.text == SignalDegraded)
      && (a.severity == INFO ==> a.value > 30 && a.threshold == 30 && a.text == LinkRestored))
  }

  lemma OneAlertFits(d: Detector, history: seq<Band>, reading: int)
    ensures var alerts := AlertFor(d, ReportFor(history, BandOf(d, reading)), reading);
            alerts == [] || (|alerts| == 1 && alerts[0].value == reading && Fits(d, alerts[0]))
  {
    var report := ReportFor(history, BandOf(d, reading));
    assert report == Some(CRITICAL) ==> BandOf(d, reading) == Severe;
    assert report == Some(WARNING) ==> BandOf(d, reading) == Marginal;
    assert report == Some(INFO) ==> BandOf(d, reading) == Nominal;
  }

  // Every alert is about a reading that was judged.
  lemma {:induction false} AlertsFit(d: Detector, readings: seq<int>, i: nat)
    requires i < |AlertsOf(d, readings)|
    ensures AlertsOf(d, readings)[i].value in readings && Fits(d, AlertsOf(d, readings)[i])
  {
    if readings == [] {
    } else {
      var older, reading := readings[..|readings| - 1], readings[|readings| - 1];
      OneAlertFits(d, BandsOf(d, older), reading);
      if i < |AlertsOf(d, older)| {
        AlertsFit(d, older, i);
      }
    }
  }

  lemma RunAlertsFit(d: Detector, states: seq<Sys>, acts: seq<Action>, n: nat, i: nat)
    requires Execution(states, acts) && n <= |acts|
    requires i < |Reported(d, states, acts, n) + UnsentBy(d, states[n])|
    ensures var a := (Reported(d, states, acts, n) + UnsentBy(d, states[n]))[i];
            a.value in Judged(d, states, acts, n) && Fits(d, a)
  {
    LatchFollowsReadings(d, states, acts, n);
    AlertsFit(d, Judged(d, states, acts, n), i);
  }

  // In every run each alert that the battery thread has sent, or is about to send, names POWER, gives the
  // reading that was judged and the threshold of its own kind, and is worded for that kind.
  lemma BatteryAlertsAreExact(states: seq<Sys>, acts: seq<Action>, n: nat, i: nat)
    requires Execution(states, acts) && n <= |acts|
    requires i < |Reported(BatteryDetector, states, acts, n) + UnsentBy(BatteryDetector, states[n])|
    ensures var a := (Reported(BatteryDetector, states, acts, n) + UnsentBy(BatteryDetector, states[n]))[i];
            && a.source == POWER && a.value in Judged(BatteryDetector, states, acts, n)
            && (a.severity == CRITICAL ==> a.value <= 10 && a.threshold == 10 && a.text == BatteryCriticallyLow)
            && (a.severity == WARNING ==> 10 < a.value <= 20 && a.threshold == 20 && a.text == BatteryLow)
            && (a.severity == INFO ==> a.value > 20 && a.threshold == 20 && a.text == BatteryRecovered)
  {
    RunAlertsFit(BatteryDetector, states, acts, n, i);
  }

  // The same for the signal quality ...
  lemma SignalAlertsAreExact(states: seq<Sys>, acts: seq<Action>, n: nat, i: nat)
    requires Execution(states, acts) && n <= |acts|
    requires i < |Reported(SignalDetector, states, acts, n) + UnsentBy(SignalDetector, states[n])|
    ensures var a := (Reported(SignalDetector, states, acts, n) + UnsentBy(SignalDetector, states[n]))[i];
            && a.source == COMMS && a.value in Judged(SignalDetector, states, acts, n)
            && (a.severity == CRITICAL ==> a.value <= 10 && a.threshold == 10 && a.text == LinkLost)
            && (a.severity == WARNING ==> 10 < a.value <= 30 && a.threshold == 30 && a.text == SignalDegraded)
            && (a.severity == INFO ==> a.value > 30 && a.threshold == 30 && a.text == LinkRestored)
  {
    RunAlertsFit(SignalDetector, states, acts, n, i);
  }

  // ... and for the CPU temperature.
  lemma CpuAlertsAreExact(states: seq<Sys>, acts: seq<Action>, n: nat, i: nat)
    requires Execution(states, acts) && n <= |acts|
    requires i < |Reported(CpuDetector, states, acts, n) + UnsentBy(CpuDetector, states[n])|
    ensures var a := (Reported(CpuDetector, states, acts, n) + UnsentBy(CpuDetector, states[n]))[i];
            && a.source == THERMAL && a.value in Judged(CpuDetector, states, acts, n)
            && (a.severity == CRITICAL ==> a.value >= 95 && a.threshold == 95 && a.text == CpuOverheat)
            && (a.severity == WARNING ==> 85 <= a.value < 95 && a.threshold == 85 && a.text == CpuElevated)
            && (a.severity == INFO ==> a.value < 85 && a.threshold == 85 && a.text == CpuNormal)
  {
    RunAlertsFit(CpuDetector, states, acts, n, i);
  }
}
