/**
 The fault latch that battery_thread, sensor_thread and downlink_thread all run: a critical
 reading is reported once and sets the latch, readings in the warning band are reported while
 the latch is clear, and the first nominal reading clears the latch with an INFO report.
 */
module Latch {
  import opened Alerts

  datatype Band = Nominal | Marginal | Severe

  // The latch after judging one reading, and the severity reported, if any.
  datatype Verdict = Verdict(fault: bool, report: Option<Severity>)

  function Judge(fault: bool, band: Band): Verdict {
    if band == Severe && !fault then Verdict(true, Some(CRITICAL))
    else if band != Nominal && !fault then Verdict(false, Some(WARNING))
    else if band == Nominal && fault then Verdict(false, Some(INFO))
    else Verdict(fault, None)
  }

  // ----- the latch as a function of the history of readings -----

  // A severe reading has occurred since the last nominal one.
  ghost predicate SevereSinceNominal(history: seq<Band>) {
    exists i :: 0 <= i < |history| && history[i] == Severe && forall j | i < j < |history| :: history[j] != Nominal
  }

  // What the reading after `history` is to be reported as.
  ghost function ReportFor(history: seq<Band>, band: Band): Option<Severity> {
    if SevereSinceNominal(history) then (if band == Nominal then Some(INFO) else None)
    else match band case Severe => Some(CRITICAL) case Marginal => Some(WARNING) case Nominal => None
  }

  // The latch and the reports of a thread that judges `history` starting with the latch clear.
  function FaultAfter(history: seq<Band>): bool {
    if history == [] then false
    else Judge(FaultAfter(history[..|history| - 1]), history[|history| - 1]).fault
  }

  function ReportsOf(history: seq<Band>): seq<Severity> {
    if history == [] then []
    else
      var older := history[..|history| - 1];
      var report := Judge(FaultAfter(older), history[|history| - 1]).report;
      ReportsOf(older) + (if report.Some? then [report.value] else [])
  }

  // Step by step the latch is the history predicate, and each report is the one the history calls for.
  lemma {:induction false} LatchRefinesHistory(history: seq<Band>, band: Band)
    ensures FaultAfter(history) <==> SevereSinceNominal(history)
    ensures Judge(FaultAfter(history), band).report == ReportFor(history, band)
  {
    if history == [] {
    } else {
      var n := |history| - 1;
      LatchRefinesHistory(history[..n], band);
      SevereSinceNominalStep(history[..n], history[n]);
      assert history[..n] + [history[n]] == history;
    }
  }

  lemma SevereSinceNominalStep(older: seq<Band>, band: Band)
    ensures SevereSinceNominal(older + [band]) <==> band == Severe || (SevereSinceNominal(older) && band != Nominal)
  {
    var history := older + [band];
    if band == Severe {
      assert history[|older|] == Severe;
    } else if SevereSinceNominal(older) && band != Nominal {
      var i :| 0 <= i < |older| && older[i] == Severe && forall j | i < j < |older| :: older[j] != Nominal;
      assert history[i] == Severe;
    } else {
      forall i | 0 <= i < |history| && history[i] == Severe
        ensures exists j :: i < j < |history| && history[j] == Nominal
      {
        assert older[i] == Severe;
        if band == Nominal {
          assert history[|older|] == Nominal;
        } else {
          var j :| i < j < |older| && older[j] == Nominal;
          assert history[j] == Nominal;
        }
      }
    }
  }

  // (WARNING* CRITICAL INFO)*, cut anywhere: INFO comes right after CRITICAL and nothing else does.
  ghost predicate WellShaped(reports: seq<Severity>) {
    && (reports != [] ==> reports[0] != INFO)
    && forall i | 0 < i < |reports| :: reports[i] == INFO <==> reports[i - 1] == CRITICAL
  }

  predicate EndsCritical(reports: seq<Severity>) {
    reports != [] && reports[|reports| - 1] == CRITICAL
  }

  lemma WellShapedOneMore(reports: seq<Severity>, severity: Severity)
    requires WellShaped(reports) && (severity == INFO <==> EndsCritical(reports))
    ensures WellShaped(reports + [severity])
  {
    var longer := reports + [severity];
    forall i | 0 < i < |longer| ensures longer[i] == INFO <==> longer[i - 1] == CRITICAL {
      if i < |reports| {
        assert longer[i] == reports[i] && longer[i - 1] == reports[i - 1];
      } else {
        assert longer[i - 1] == reports[|reports| - 1];
      }
    }
  }

  lemma {:induction false} ReportsAreWellShaped(history: seq<Band>)
    ensures WellShaped(ReportsOf(history))
    ensures FaultAfter(history) <==> EndsCritical(ReportsOf(history))
  {
    if history == [] {
    } else {
      var older, band := history[..|history| - 1], history[|history| - 1];
      ReportsAreWellShaped(older);
      var v := Judge(FaultAfter(older), band);
      if v.report.Some? {
        assert ReportsOf(history) == ReportsOf(older) + [v.report.value];
        WellShapedOneMore(ReportsOf(older), v.report.value);
      } else {
        assert ReportsOf(history) == ReportsOf(older);
      }
    }
  }
}
