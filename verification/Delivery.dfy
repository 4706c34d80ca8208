/** Every CRITICAL alert reaches the log, and the file, under a fair scheduler. */
module Delivery {
  import opened Alerts
  import opened Records
  import opened FlightLog
  import opened Spacecraft
  import opened MessageQueue
  import opened Progress
  import opened SafeMode
  import opened Fairness
  import opened Ledger
  import opened MissionLog

  lemma AlwaysOrdered(st: nat -> Sys, act: nat -> Action, n: nat)
    requires Forever(st, act)
    ensures Ordered(st(n).queue)
  {
    for k := 0 to n
      invariant Ordered(st(k).queue)
    {
      assert Takes(st(k), act(k), st(k + 1));
      QueueStaysOrdered(st(k), act(k));
    }
  }

  // Until the logger moves, a queued CRITICAL alert keeps its place.
  lemma WaitsUntil(st: nat -> Sys, act: nat -> Action, n: nat, m: nat, i: nat, a: Alert)
    requires Forever(st, act) && n <= m && WaitsAt(st(n), i, a)
    requires forall k: nat | n <= k < m :: !StepOf(act(k), Logger)
    ensures WaitsAt(st(m), i, a)
  {
    for k := n to m
      invariant WaitsAt(st(k), i, a)
    {
      assert Takes(st(k), act(k), st(k + 1));
      PlaceKept(st(k), act(k), st(k + 1), i, a);
    }
  }

  lemma LoggerTakes(s: Sys, act: Action, after: Sys, i: nat, a: Alert)
    requires Takes(s, act, after) && StepOf(act, Logger) && WaitsAt(s, i, a)
    ensures if !s.logger.pc.LgReceive? then
              WaitsAt(after, i, a) && LoggerDistance(after.logger.pc) < LoggerDistance(s.logger.pc)
            else if i == 0 then InHand(after) == [a]
            else WaitsAt(after, i - 1, a)
  {
    PlaceKept(s, act, after, i, a);
  }

  // A CRITICAL alert in the queue is received: first those before it, each after at most three steps.
  lemma {:induction false} IsReceived(st: nat -> Sys, act: nat -> Action, n: nat, i: nat, a: Alert) returns (m: nat)
    requires FairRun(st, act) && WaitsAt(st(n), i, a)
    ensures n <= m && InHand(st(m)) == [a]
    decreases i, LoggerDistance(st(n).logger.pc)
  {
    EveryThreadSteps(st, act, Logger, n);
    m := NextStep(st, act, Logger, n);
    WaitsUntil(st, act, n, m, i, a);
    LoggerTakes(st(m), act(m), st(m + 1), i, a);
    if !st(m).logger.pc.LgReceive? {
      m := IsReceived(st, act, m + 1, i, a);
    } else if i > 0 {
      m := IsReceived(st, act, m + 1, i - 1, a);
    } else {
      m := m + 1;
    }
  }

  lemma HandIsKept(s: Sys, act: Action, after: Sys, a: Alert)
    requires Takes(s, act, after) && InHand(s) == [a] && a.severity == CRITICAL
    ensures if StepOf(act, Logger) then after.logger.log == s.logger.log + [a] else InHand(after) == [a]
  {
  }

  lemma HandIsKeptUntil(st: nat -> Sys, act: nat -> Action, n: nat, m: nat, a: Alert)
    requires Forever(st, act) && n <= m && InHand(st(n)) == [a] && a.severity == CRITICAL
    requires forall k: nat | n <= k < m :: !StepOf(act(k), Logger)
    ensures InHand(st(m)) == [a]
  {
    for k := n to m
      invariant InHand(st(k)) == [a]
    {
      assert Takes(st(k), act(k), st(k + 1));
      HandIsKept(st(k), act(k), st(k + 1), a);
    }
  }

  // Liveness of the alerts: in every fair run a CRITICAL alert that is in the queue or in the logger's hand
  // is in the end the newest entry of the log.
  lemma CriticalIsLogged(st: nat -> Sys, act: nat -> Action, n: nat, a: Alert) returns (m: nat)
    requires FairRun(st, act) && a.severity == CRITICAL && (a in st(n).queue || InHand(st(n)) == [a])
    ensures n < m && st(m).logger.log != [] && st(m).logger.log[|st(m).logger.log| - 1] == a
  {
    var hand := n;
    if InHand(st(n)) != [a] {
      AlwaysOrdered(st, act, n);
      var i :| 0 <= i < |st(n).queue| && st(n).queue[i] == a;
      hand := IsReceived(st, act, n, i, a);
    }
    EveryThreadSteps(st, act, Logger, hand);
    m := NextStep(st, act, Logger, hand);
    HandIsKeptUntil(st, act, hand, m, a);
    HandIsKept(st(m), act(m), st(m + 1), a);
    m := m + 1;
  }

  // ----- and from the log into the file -----

  ghost function StatesTo(st: nat -> Sys, n: nat): (states: seq<Sys>)
    ensures |states| == n + 1
  {
    seq(n + 1, k requires 0 <= k => st(k))
  }

  ghost function ActsTo(act: nat -> Action, n: nat): (acts: seq<Action>)
    ensures |acts| == n
  {
    seq(n, k requires 0 <= k => act(k))
  }

  lemma PrefixIsExecution(st: nat -> Sys, act: nat -> Action, n: nat)
    requires Forever(st, act)
    ensures Execution(StatesTo(st, n), ActsTo(act, n))
  {
    forall k | 0 <= k < n ensures StepAt(StatesTo(st, n), ActsTo(act, n), k) {
      assert Takes(st(k), act(k), st(k + 1));
    }
  }

  // So it is in the end the last entry of the file, and reads back as itself.
  lemma CriticalReachesFile(st: nat -> Sys, act: nat -> Action, n: nat, a: Alert, start: seq<byte>, before: seq<Report>,
                            words: Wording -> seq<byte>, stamps: nat -> seq<byte>) returns (m: nat)
    requires FairRun(st, act) && a.severity == CRITICAL && (a in st(n).queue || InHand(st(n)) == [a])
    requires IsLogOf(start, before) && Strings(words, stamps)
    ensures n < m && st(m).logger.log != []
    ensures Execution(StatesTo(st, m), ActsTo(act, m))
    ensures st(m).logger.log[|st(m).logger.log| - 1] == a
    ensures |before| + |st(m).logger.log| < 0x8000_0000 ==>
              FileTells(FileAt(start, StatesTo(st, m), ActsTo(act, m), words, stamps, m), |before|, st(m).logger.log,
                        |st(m).logger.log| - 1, words, stamps)
  {
    m := CriticalIsLogged(st, act, n, a);
    PrefixIsExecution(st, act, m);
    if |before| + |st(m).logger.log| < 0x8000_0000 {
      LogReadsBackAsAlerts(start, before, StatesTo(st, m), ActsTo(act, m), words, stamps, m, |st(m).logger.log| - 1);
    }
  }
}
