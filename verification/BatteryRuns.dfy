/**
 The battery's envelope in every run of the whole system, and the alerts that it forces: the counterpart for
 runs of what PowerUnit proves of the battery thread alone.
 */
module BatteryRuns {
  import opened Alerts
  import opened Latch
  import opened PowerPlant
  import opened Spacecraft
  import opened PlantRuns
  import opened LatchRuns
  import opened PowerUnit

  predicate DrainsBy(s: Sys, a: Action) {
    a.Step? && a.t == Battery && s.power.battery.BatLevel? && s.power.d.inEclipse
  }

  // Battery steps that drained, among the actions from m to n.
  function Drains(states: seq<Sys>, acts: seq<Action>, m: nat, n: nat): nat
    requires m <= n <= |acts| < |states|
  {
    if m == n then 0 else Drains(states, acts, m, n - 1) + (if DrainsBy(states[n - 1], acts[n - 1]) then 1 else 0)
  }

  // Levels that k drains from b can lead to, and k charges.
  predicate Drained(b: int, k: int, level: int) {
    Max(0, b - 15 * k) <= level <= Max(0, b - 8 * k)
  }

  predicate Charged(b: int, k: int, level: int) {
    100 - Max(0, 100 - b - 3 * k) <= level <= 100 - Max(0, 100 - b - 6 * k)
  }

  function Level(s: Sys): int {
    s.power.d.batteryPct
  }

  lemma LevelStep(s: Sys, a: Action, after: Sys)
    requires Takes(s, a, after) && PowerInv(s.power)
    ensures if DrainsBy(s, a) then Drained(Level(s), 1, Level(after))
            else if ChargesBy(s, a) == 1 then Charged(Level(s), 1, Level(after))
            else Level(after) == Level(s)
  {
  }

  lemma OneMoreDrain(b: int, k: nat, level: int, level': int)
    requires Drained(b, k, level) && Drained(level, 1, level')
    ensures Drained(b, k + 1, level')
  {
  }

  lemma OneMoreCharge(b: int, k: nat, level: int, level': int)
    requires b <= 100 && Charged(b, k, level) && Charged(level, 1, level')
    ensures Charged(b, k + 1, level')
  {
  }

  // ----- the eclipse, and the time after it -----

  lemma StagesBetween(states: seq<Sys>, acts: seq<Action>, m: nat, k: nat, n: nat)
    requires Execution(states, acts) && m <= k <= n <= |acts|
    ensures FlagClock(states[m].power) <= FlagClock(states[k].power) <= FlagClock(states[n].power)
  {
    PowerEvolves(states, acts, m, k);
    PowerEvolves(states, acts, k, n);
  }

  lemma EclipseStep(states: seq<Sys>, acts: seq<Action>, m: nat, n: nat)
    requires Execution(states, acts) && m <= n < |acts| && StageOf(states[n].power) == During
    requires Drained(Level(states[m]), Drains(states, acts, m, n), Level(states[n]))
    ensures Drained(Level(states[m]), Drains(states, acts, m, n + 1), Level(states[n + 1]))
  {
    PlantHolds(states, acts, n);
    assert StepAt(states, acts, n);
    LevelStep(states[n], acts[n], states[n + 1]);
    if DrainsBy(states[n], acts[n]) {
      OneMoreDrain(Level(states[m]), Drains(states, acts, m, n), Level(states[n]), Level(states[n + 1]));
    }
  }

  // Within the eclipse, k drains take the level from b to between max(0, b - 15k) and max(0, b - 8k).
  lemma {:induction false} EclipseEnvelope(states: seq<Sys>, acts: seq<Action>, m: nat, n: nat)
    requires Execution(states, acts) && m <= n <= |acts|
    requires StageOf(states[m].power) == During && StageOf(states[n].power) == During
    ensures Drained(Level(states[m]), Drains(states, acts, m, n), Level(states[n]))
  {
    PlantHolds(states, acts, m);
    for k := m to n
      invariant Drained(Level(states[m]), Drains(states, acts, m, k), Level(states[k]))
    {
      StagesBetween(states, acts, m, k, n);
      EclipseStep(states, acts, m, k);
    }
  }

  lemma SunStep(states: seq<Sys>, acts: seq<Action>, m: nat, n: nat)
    requires Execution(states, acts) && m <= n < |acts| && StageOf(states[n].power) == After && Level(states[m]) <= 100
    requires Charged(Level(states[m]), Charges(states, acts, m, n), Level(states[n]))
    ensures Charged(Level(states[m]), Charges(states, acts, m, n + 1), Level(states[n + 1]))
  {
    PlantHolds(states, acts, n);
    assert StepAt(states, acts, n);
    LevelStep(states[n], acts[n], states[n + 1]);
    if ChargesBy(states[n], acts[n]) == 1 {
      OneMoreCharge(Level(states[m]), Charges(states, acts, m, n), Level(states[n]), Level(states[n + 1]));
    }
  }

  // After it, k charges take the level from b to between min(100, b + 3k) and min(100, b + 6k).
  lemma {:induction false} SunEnvelope(states: seq<Sys>, acts: seq<Action>, m: nat, n: nat)
    requires Execution(states, acts) && m <= n <= |acts| && StageOf(states[m].power) == After
    ensures Charged(Level(states[m]), Charges(states, acts, m, n), Level(states[n]))
  {
    PlantHolds(states, acts, m);
    for k := m to n
      invariant Charged(Level(states[m]), Charges(states, acts, m, k), Level(states[k]))
    {
      StagesBetween(states, acts, m, k, k);
      SunStep(states, acts, m, k);
    }
  }

  // ----- from power-up to the end of the eclipse -----

  predicate FallsFromFull(states: seq<Sys>, acts: seq<Action>, n: nat)
    requires n <= |acts| < |states|
  {
    && Drained(100, Drains(states, acts, 0, n), Level(states[n]))
    && (StageOf(states[n].power) == Before ==> Drains(states, acts, 0, n) == 0)
  }

  lemma FallsFromFullAt(states: seq<Sys>, acts: seq<Action>, n: nat)
    requires Execution(states, acts) && n < |acts| && FallsFromFull(states, acts, n)
    requires StageOf(states[n + 1].power) != After
    ensures FallsFromFull(states, acts, n + 1)
  {
    PlantHolds(states, acts, n);
    PlantHolds(states, acts, n + 1);
    StagesBetween(states, acts, n, n, n + 1);
    assert StepAt(states, acts, n);
    LevelStep(states[n], acts[n], states[n + 1]);
    if DrainsBy(states[n], acts[n]) {
      OneMoreDrain(100, Drains(states, acts, 0, n), Level(states[n]), Level(states[n + 1]));
    }
  }

  lemma {:induction false} FullUntilEclipse(states: seq<Sys>, acts: seq<Action>, n: nat)
    requires Execution(states, acts) && n <= |acts| && StageOf(states[n].power) != After
    ensures FallsFromFull(states, acts, n)
  {
    for k := 0 to n
      invariant FallsFromFull(states, acts, k)
    {
      StagesBetween(states, acts, k, k + 1, n);
      FallsFromFullAt(states, acts, k);
    }
  }

  // ----- the alerts -----

  function Readings(states: seq<Sys>, acts: seq<Action>, n: nat): seq<int>
    requires n <= |acts| < |states|
  {
    Judged(BatteryDetector, states, acts, n)
  }

  // Unless the battery thread is just about to judge it, the present level has been judged.
  predicate LatestIsJudged(states: seq<Sys>, acts: seq<Action>, n: nat)
    requires n <= |acts| < |states|
  {
    var readings := Readings(states, acts, n);
    Drains(states, acts, 0, n) + Charges(states, acts, 0, n) > 0 && !states[n].power.battery.BatJudge? ==>
      readings != [] && readings[|readings| - 1] == Level(states[n])
  }

  lemma JudgingStep(s: Sys, a: Action, after: Sys)
    requires Takes(s, a, after)
    ensures !after.power.battery.BatJudge? ==> Level(after) == Level(s) && !DrainsBy(s, a) && ChargesBy(s, a) == 0
    ensures s.power.battery.BatJudge? && !after.power.battery.BatJudge? ==>
        JudgedBy(BatteryDetector, s, a) == [Level(s)]
    ensures !s.power.battery.BatJudge? ==> JudgedBy(BatteryDetector, s, a) == []
  {
  }

  lemma LatestIsJudgedAt(states: seq<Sys>, acts: seq<Action>, n: nat)
    requires Path(states, acts) && n < |acts| && LatestIsJudged(states, acts, n)
    ensures LatestIsJudged(states, acts, n + 1)
  {
    assert StepAt(states, acts, n);
    JudgingStep(states[n], acts[n], states[n + 1]);
  }

  lemma {:induction false} LatestIsJudgedIn(states: seq<Sys>, acts: seq<Action>, n: nat)
    requires Execution(states, acts) && n <= |acts|
    ensures LatestIsJudged(states, acts, n)
  {
    for k := 0 to n
      invariant LatestIsJudged(states, acts, k)
    {
      LatestIsJudgedAt(states, acts, k);
    }
  }

  ghost predicate AllNominal(readings: seq<int>) {
    forall i | 0 <= i < |readings| :: readings[i] > BATTERY_WARNING
  }

  lemma {:induction false} NominalIsSilent(readings: seq<int>)
    requires AllNominal(readings)
    ensures AlertsOf(BatteryDetector, readings) == []
  {
    if readings == [] {
    } else {
      var older := readings[..|readings| - 1];
      NominalIsSilent(older);
      var bands := BandsOf(BatteryDetector, older);
      assert forall i | 0 <= i < |bands| :: bands[i] == Nominal;
      assert !SevereSinceNominal(bands);
    }
  }

  lemma {:induction false} EarlyReadingsAreNominal(states: seq<Sys>, acts: seq<Action>, n: nat)
    requires Execution(states, acts) && n <= |acts| && StageOf(states[n].power) != After
    requires Drains(states, acts, 0, n) < 6
    ensures AllNominal(Readings(states, acts, n))
  {
    if n == 0 {
    } else {
      StagesBetween(states, acts, n - 1, n - 1, n);
      EarlyReadingsAreNominal(states, acts, n - 1);
      FullUntilEclipse(states, acts, n - 1);
    }
  }

  // A history whose last reading is not nominal has been reported, and one whose last reading is severe
  // by a CRITICAL.
  lemma LastReadingIsReported(history: seq<Band>)
    requires history != [] && history[|history| - 1] != Nominal
    ensures ReportsOf(history) != []
    ensures history[|history| - 1] == Severe ==> FaultAfter(history) && EndsCritical(ReportsOf(history))
  {
    ReportsAreWellShaped(history[..|history| - 1]);
    ReportsAreWellShaped(history);
  }

  // The alerts sent by the battery thread, with the one it is about to send.
  function BatteryAlerts(states: seq<Sys>, acts: seq<Action>, n: nat): seq<Alert>
    requires n <= |acts| < |states|
  {
    Reported(BatteryDetector, states, acts, n) + UnsentBy(BatteryDetector, states[n])
  }

  lemma LatestIsReported(states: seq<Sys>, acts: seq<Action>, n: nat)
    requires Execution(states, acts) && n <= |acts| && !states[n].power.battery.BatJudge?
    requires Drains(states, acts, 0, n) > 0 && Level(states[n]) <= BATTERY_WARNING
    ensures BatteryAlerts(states, acts, n) != []
    ensures Level(states[n]) <= BATTERY_CRITICAL ==>
              states[n].power.d.faultActive && EndsCritical(SeveritiesOf(BatteryAlerts(states, acts, n)))
  {
    var readings := Readings(states, acts, n);
    LatestIsJudgedIn(states, acts, n);
    LatchFollowsReadings(BatteryDetector, states, acts, n);
    SeveritiesAreReports(BatteryDetector, readings);
    LastReadingIsReported(BandsOf(BatteryDetector, readings));
    LatchRefinesHistory(BandsOf(BatteryDetector, readings), Nominal);
  }

  // In every run, up to the end of the eclipse: fewer than 6 drains and the battery thread is silent; once
  // 10 drains have been judged it has sent or is about to send an alert; once 12 have been judged the
  // latch is set and the latest alert is CRITICAL.
  lemma EclipseTimeline(states: seq<Sys>, acts: seq<Action>, n: nat)
    requires Execution(states, acts) && n <= |acts| && StageOf(states[n].power) != After
    ensures Drains(states, acts, 0, n) < 6 ==> BatteryAlerts(states, acts, n) == []
    ensures Drains(states, acts, 0, n) >= 10 && !states[n].power.battery.BatJudge? ==>
        BatteryAlerts(states, acts, n) != []
    ensures Drains(states, acts, 0, n) >= 12 && !states[n].power.battery.BatJudge? ==>
              states[n].power.d.faultActive && EndsCritical(SeveritiesOf(BatteryAlerts(states, acts, n)))
  {
    FullUntilEclipse(states, acts, n);
    if Drains(states, acts, 0, n) < 6 {
      EarlyReadingsAreNominal(states, acts, n);
      NominalIsSilent(Readings(states, acts, n));
      LatchFollowsReadings(BatteryDetector, states, acts, n);
    } else if Drains(states, acts, 0, n) >= 10 && !states[n].power.battery.BatJudge? {
      LatestIsReported(states, acts, n);
    }
  }

  lemma {:induction false} LaterChargesAreCharges(states: seq<Sys>, acts: seq<Action>, m: nat, n: nat)
    requires m <= n <= |acts| < |states|
    ensures Charges(states, acts, m, n) <= Charges(states, acts, 0, n)
  {
    if m == n {
    } else {
      LaterChargesAreCharges(states, acts, m, n - 1);
    }
  }

  lemma NominalClears(history: seq<Band>)
    requires history != [] && history[|history| - 1] == Nominal
    ensures !FaultAfter(history)
  {
  }

  // In every run, after the eclipse: 7 charges lift the battery above 20, and once that is judged the latch
  // is clear; 34 fill it.
  lemma SunTimeline(states: seq<Sys>, acts: seq<Action>, m: nat, n: nat)
    requires Execution(states, acts) && m <= n <= |acts| && StageOf(states[m].power) == After
    ensures Charges(states, acts, m, n) >= 7 ==> Level(states[n]) > BATTERY_WARNING
    ensures Charges(states, acts, m, n) >= 7 && !states[n].power.battery.BatJudge? ==> !states[n].power.d.faultActive
    ensures Charges(states, acts, m, n) >= 34 ==> Level(states[n]) == 100
  {
    PlantHolds(states, acts, m);
    SunEnvelope(states, acts, m, n);
    if Charges(states, acts, m, n) >= 7 && !states[n].power.battery.BatJudge? {
      LaterChargesAreCharges(states, acts, m, n);
      LatestIsJudgedIn(states, acts, n);
      NominalClears(BandsOf(BatteryDetector, Readings(states, acts, n)));
      LatchFollowsReadings(BatteryDetector, states, acts, n);
      LatchRefinesHistory(BandsOf(BatteryDetector, Readings(states, acts, n)), Nominal);
    }
  }
}
