/**
 What becomes of every alert that is sent: conservation, the order in which alerts of one
 severity are handled, and the logger's pause.
 */
module Ledger {
  import opened Alerts
  import opened MessageQueue
  import opened Spacecraft
  import opened Locks

  function AsSeq(o: Option<Alert>): seq<Alert> {
    if o.Some? then [o.value] else []
  }

  // ----- the records of a run, read off its first n actions -----

  function SentBy(s: Sys, a: Action): seq<Alert> {
    if a.Step? then AsSeq(Sends(s, a.t)) else []
  }

  predicate Handles(s: Sys, a: Action) {
    a.Step? && a.t == Logger && s.logger.pc.LgHandle?
  }

  function HandledBy(s: Sys, a: Action): seq<Alert> {
    if Handles(s, a) then [s.logger.pc.alert] else []
  }

  function SkippedBy(s: Sys, a: Action): seq<Alert> {
    if Handles(s, a) && !Logs(s.logger, s.logger.pc.alert) then [s.logger.pc.alert] else []
  }

  function SentIn(states: seq<Sys>, acts: seq<Action>, n: nat): seq<Alert>
    requires n <= |acts| < |states|
  {
    if n == 0 then [] else SentIn(states, acts, n - 1) + SentBy(states[n - 1], acts[n - 1])
  }

  function HandledIn(states: seq<Sys>, acts: seq<Action>, n: nat): seq<Alert>
    requires n <= |acts| < |states|
  {
    if n == 0 then [] else HandledIn(states, acts, n - 1) + HandledBy(states[n - 1], acts[n - 1])
  }

  function SkippedIn(states: seq<Sys>, acts: seq<Action>, n: nat): seq<Alert>
    requires n <= |acts| < |states|
  {
    if n == 0 then [] else SkippedIn(states, acts, n - 1) + SkippedBy(states[n - 1], acts[n - 1])
  }

  // The alert that the logger has received and not yet handled.
  function InHand(s: Sys): seq<Alert> {
    if s.logger.pc.LgHandle? then [s.logger.pc.alert] else []
  }

  // The four things an action can do to the messages in the queue and in the logger's hand.
  predicate Moves(hand: seq<Alert>, q: seq<Alert>, sent: seq<Alert>, handled: seq<Alert>, hand': seq<Alert>,
                  q': seq<Alert>) {
    || (|sent| == 1 && handled == [] && hand' == hand && q' == Insert(q, sent[0]))
    || (sent == [] && handled == [] && q != [] && hand == [] && hand' == [q[0]] && q' == q[1..])
    || (sent == [] && handled == hand && hand' == [] && q' == q)
    || (sent == [] && handled == [] && hand' == hand && q' == q)
  }

  lemma Movement(s: Sys, a: Action)
    requires Enabled(s, a)
    ensures Moves(InHand(s), s.queue, SentBy(s, a), HandledBy(s, a), InHand(Next(s, a)), Next(s, a).queue)
  {
    if a.Step? && a.t != Logger {
      assert LoggerNext(s.logger, a.t, s.queue, s.inbox[LOGGER_CHILD].safe) == s.logger;
    }
  }

  lemma QueueStaysOrdered(s: Sys, a: Action)
    requires Ordered(s.queue) && Enabled(s, a)
    ensures Ordered(Next(s, a).queue)
  {
    Movement(s, a);
    if SentBy(s, a) != [] {
      InsertKeepsOrder(s.queue, SentBy(s, a)[0]);
    }
  }

  lemma SendKeepsOrder(hand: seq<Alert>, q: seq<Alert>, a: Alert, v: Severity)
    requires Ordered(q)
    ensures OfSeverity(hand, v) + OfSeverity(Insert(q, a), v)
        == OfSeverity(hand, v) + OfSeverity(q, v) + OfSeverity([a], v)
  {
    InsertKeepsSeverity(q, a, v);
  }

  lemma TakeKeepsOrder(q: seq<Alert>, v: Severity)
    requires q != []
    ensures OfSeverity([q[0]], v) + OfSeverity(q[1..], v) == OfSeverity(q, v)
  {
    OfSeverityAppend([q[0]], q[1..], v);
    assert q == [q[0]] + q[1..];
  }

  lemma HandlingKeepsOrder(hand: seq<Alert>, handled: seq<Alert>, hand': seq<Alert>, queued: seq<Alert>, v: Severity)
    requires (handled == hand && hand' == []) || (handled == [] && hand' == hand)
    ensures OfSeverity(handled, v) + (OfSeverity(hand', v) + queued) == (OfSeverity(hand, v) + queued) + []
  {
    assert OfSeverity([], v) == [];
  }

  // In an ordered queue, alerts of one severity are handled in the order in which they were sent.
  lemma MoveKeepsOrder(hand: seq<Alert>, q: seq<Alert>, sent: seq<Alert>, handled: seq<Alert>, hand': seq<Alert>,
                       q': seq<Alert>, v: Severity)
    requires Ordered(q) && Moves(hand, q, sent, handled, hand', q')
    ensures OfSeverity(handled, v) + (OfSeverity(hand', v) + OfSeverity(q', v))
            == (OfSeverity(hand, v) + OfSeverity(q, v)) + OfSeverity(sent, v)
  {
    if |sent| == 1 {
      assert sent == [sent[0]];
      SendKeepsOrder(hand, q, sent[0], v);
    } else if q' != q {
      TakeKeepsOrder(q, v);
    } else {
      HandlingKeepsOrder(hand, handled, hand', OfSeverity(q, v), v);
    }
  }

  // The alerts on their way to the logger's decision, and those of severity v among them.
  function OnTheWay(s: Sys): multiset<Alert> {
    multiset(InHand(s)) + multiset(s.queue)
  }

  function OnTheWayOf(s: Sys, v: Severity): seq<Alert> {
    OfSeverity(InHand(s), v) + OfSeverity(s.queue, v)
  }

  lemma StepKeepsOrder(s: Sys, a: Action, after: Sys, v: Severity)
    requires Ordered(s.queue) && Takes(s, a, after)
    ensures OfSeverity(HandledBy(s, a), v) + OnTheWayOf(after, v) == OnTheWayOf(s, v) + OfSeverity(SentBy(s, a), v)
  {
    Movement(s, a);
    MoveKeepsOrder(InHand(s), s.queue, SentBy(s, a), HandledBy(s, a), InHand(after), after.queue, v);
  }

  lemma MoveKeepsAll(hand: seq<Alert>, q: seq<Alert>, sent: seq<Alert>, handled: seq<Alert>, hand': seq<Alert>,
                     q': seq<Alert>)
    requires Moves(hand, q, sent, handled, hand', q')
    ensures multiset(handled) + multiset(hand') + multiset(q') == multiset(hand) + multiset(q) + multiset(sent)
  {
    if sent != [] {
      assert sent == [sent[0]];
      InsertAddsOne(q, sent[0]);
    } else if q != [] {
      assert q == [q[0]] + q[1..];
    }
  }

  lemma StepKeepsAll(s: Sys, a: Action, after: Sys)
    requires Takes(s, a, after)
    ensures multiset(HandledBy(s, a)) + OnTheWay(after) == OnTheWay(s) + multiset(SentBy(s, a))
  {
    Movement(s, a);
    MoveKeepsAll(InHand(s), s.queue, SentBy(s, a), HandledBy(s, a), InHand(after), after.queue);
  }

  lemma LogGrows(s: Sys, a: Action, after: Sys)
    requires Takes(s, a, after)
    ensures after.logger.log == s.logger.log + (if SkippedBy(s, a) == [] then HandledBy(s, a) else [])
    ensures SkippedBy(s, a) == [] || (SkippedBy(s, a) == HandledBy(s, a) && HandledBy(s, a)[0].severity != CRITICAL)
    ensures |HandledBy(s, a)| <= 1
  {
  }

  lemma HandlingStep(s: Sys, a: Action, after: Sys)
    requires Takes(s, a, after)
    ensures if Handles(s, a) then
              var held := s.logger.pc.alert;
              if s.logger.paused && held.severity != CRITICAL then
                after.logger.log == s.logger.log && SkippedBy(s, a) == [held]
              else after.logger.log == s.logger.log + [held] && SkippedBy(s, a) == []
            else after.logger.log == s.logger.log && SkippedBy(s, a) == []
  {
  }

  // ----- whole runs -----

  lemma {:induction false} QueueIsOrdered(states: seq<Sys>, acts: seq<Action>, n: nat)
    requires Execution(states, acts) && n <= |acts|
    ensures Ordered(states[n].queue)
  {
    if n == 0 {
    } else {
      QueueIsOrdered(states, acts, n - 1);
      assert StepAt(states, acts, n - 1);
      QueueStaysOrdered(states[n - 1], acts[n - 1]);
    }
  }

  // In every run no CRITICAL alert waits behind another severity, and no WARNING behind an INFO.
  lemma QueueIsOrderedBySeverity(states: seq<Sys>, acts: seq<Action>, n: nat)
    requires Execution(states, acts) && n <= |acts|
    ensures forall i, j | 0 <= i < j < |states[n].queue| && states[n].queue[j].severity == CRITICAL ::
              states[n].queue[i].severity == CRITICAL
    ensures forall i, j | 0 <= i < j < |states[n].queue| && states[n].queue[j].severity == WARNING ::
              states[n].queue[i].severity != INFO
  {
    QueueIsOrdered(states, acts, n);
    OrderIsBySeverity(states[n].queue);
  }

  lemma Regroup<T>(h: seq<T>, w: seq<T>, sent: seq<T>, handled: seq<T>, w': seq<T>)
    requires handled + w' == w + sent
    ensures (h + w) + sent == (h + handled) + w'
  {
    assert (h + w) + sent == h + (w + sent);
  }

  // Of severity v, what was handled followed by what is on its way is what was sent, in order.
  ghost predicate InSendOrder(sent: seq<Alert>, handled: seq<Alert>, s: Sys, v: Severity) {
    && Ordered(s.queue)
    && OfSeverity(sent, v) == OfSeverity(handled, v) + (OfSeverity(InHand(s), v) + OfSeverity(s.queue, v))
  }

  lemma OneMoreInOrder(sent: seq<Alert>, handled: seq<Alert>, s: Sys, a: Action, after: Sys, v: Severity)
    requires InSendOrder(sent, handled, s, v) && Takes(s, a, after)
    ensures InSendOrder(sent + SentBy(s, a), handled + HandledBy(s, a), after, v)
  {
    QueueStaysOrdered(s, a);
    StepKeepsOrder(s, a, after, v);
    OfSeverityAppend(sent, SentBy(s, a), v);
    OfSeverityAppend(handled, HandledBy(s, a), v);
    Regroup(OfSeverity(handled, v), OnTheWayOf(s, v), OfSeverity(SentBy(s, a), v),
            OfSeverity(HandledBy(s, a), v), OnTheWayOf(after, v));
  }

  lemma SendOrderAt(states: seq<Sys>, acts: seq<Action>, n: nat, v: Severity)
    requires Path(states, acts) && n < |acts|
    requires InSendOrder(SentIn(states, acts, n), HandledIn(states, acts, n), states[n], v)
    ensures InSendOrder(SentIn(states, acts, n + 1), HandledIn(states, acts, n + 1), states[n + 1], v)
  {
    assert StepAt(states, acts, n);
    OneMoreInOrder(SentIn(states, acts, n), HandledIn(states, acts, n), states[n], acts[n], states[n + 1], v);
  }

  lemma NothingSentYet(v: Severity)
    ensures InSendOrder([], [], Init(), v)
  {
  }

  // Alerts of one severity are handled in the order in which they were sent.
  lemma {:induction false} SeverityInSendOrder(states: seq<Sys>, acts: seq<Action>, n: nat, v: Severity)
    requires Execution(states, acts) && n <= |acts|
    ensures InSendOrder(SentIn(states, acts, n), HandledIn(states, acts, n), states[n], v)
  {
    NothingSentYet(v);
    for k := 0 to n
      invariant InSendOrder(SentIn(states, acts, k), HandledIn(states, acts, k), states[k], v)
    {
      SendOrderAt(states, acts, k, v);
    }
  }

  lemma OneMoreConserved(sent: seq<Alert>, handled: seq<Alert>, s: Sys, a: Action, after: Sys)
    requires multiset(sent) == multiset(handled) + OnTheWay(s) && Takes(s, a, after)
    ensures multiset(sent + SentBy(s, a)) == multiset(handled + HandledBy(s, a)) + OnTheWay(after)
  {
    StepKeepsAll(s, a, after);
    calc {
      multiset(sent + SentBy(s, a));
      multiset(handled) + (OnTheWay(s) + multiset(SentBy(s, a)));
      multiset(handled) + (multiset(HandledBy(s, a)) + OnTheWay(after));
    }
  }

  lemma {:induction false} SentIsHandledOrPending(states: seq<Sys>, acts: seq<Action>, n: nat)
    requires Execution(states, acts) && n <= |acts|
    ensures multiset(SentIn(states, acts, n)) == multiset(HandledIn(states, acts, n)) + OnTheWay(states[n])
  {
    if n == 0 {
    } else {
      SentIsHandledOrPending(states, acts, n - 1);
      assert StepAt(states, acts, n - 1);
      OneMoreConserved(SentIn(states, acts, n - 1), HandledIn(states, acts, n - 1), states[n - 1], acts[n - 1],
          states[n]);
    }
  }

  ghost predicate LoggedOrSkipped(handled: seq<Alert>, log: seq<Alert>, skipped: seq<Alert>) {
    multiset(handled) == multiset(log) + multiset(skipped) && forall a <- skipped :: a.severity != CRITICAL
  }

  lemma OneMoreDisposedOf(handled: seq<Alert>, skipped: seq<Alert>, s: Sys, a: Action, after: Sys)
    requires Takes(s, a, after) && LoggedOrSkipped(handled, s.logger.log, skipped)
    ensures LoggedOrSkipped(handled + HandledBy(s, a), after.logger.log, skipped + SkippedBy(s, a))
  {
    LogGrows(s, a, after);
  }

  lemma DisposedOfAt(states: seq<Sys>, acts: seq<Action>, n: nat)
    requires Path(states, acts) && n < |acts|
    requires LoggedOrSkipped(HandledIn(states, acts, n), states[n].logger.log, SkippedIn(states, acts, n))
    ensures LoggedOrSkipped(HandledIn(states, acts, n + 1), states[n + 1].logger.log, SkippedIn(states, acts, n + 1))
  {
    assert StepAt(states, acts, n);
    OneMoreDisposedOf(HandledIn(states, acts, n), SkippedIn(states, acts, n), states[n], acts[n], states[n + 1]);
  }

  lemma {:induction false} HandledIsLoggedOrSkipped(states: seq<Sys>, acts: seq<Action>, n: nat)
    requires Execution(states, acts) && n <= |acts|
    ensures LoggedOrSkipped(HandledIn(states, acts, n), states[n].logger.log, SkippedIn(states, acts, n))
  {
    for k := 0 to n
      invariant LoggedOrSkipped(HandledIn(states, acts, k), states[k].logger.log, SkippedIn(states, acts, k))
    {
      DisposedOfAt(states, acts, k);
    }
  }

  lemma OneMoreLogged(handled: seq<Alert>, s: Sys, a: Action, after: Sys)
    requires Takes(s, a, after) && OfSeverity(s.logger.log, CRITICAL) == OfSeverity(handled, CRITICAL)
    ensures OfSeverity(after.logger.log, CRITICAL) == OfSeverity(handled + HandledBy(s, a), CRITICAL)
  {
    LogGrows(s, a, after);
    OfSeverityAppend(handled, HandledBy(s, a), CRITICAL);
    OfSeverityAppend(s.logger.log, HandledBy(s, a), CRITICAL);
  }

  lemma CriticalsAreLogged(states: seq<Sys>, acts: seq<Action>, n: nat)
    requires Execution(states, acts) && n <= |acts|
    ensures OfSeverity(states[n].logger.log, CRITICAL) == OfSeverity(HandledIn(states, acts, n), CRITICAL)
  {
    for k := 0 to n
      invariant OfSeverity(states[k].logger.log, CRITICAL) == OfSeverity(HandledIn(states, acts, k), CRITICAL)
    {
      assert StepAt(states, acts, k);
      OneMoreLogged(HandledIn(states, acts, k), states[k], acts[k], states[k + 1]);
    }
  }

  // Nothing that was sent is lost: it is queued, in the logger's hand, in the log, or was skipped,
  // and no CRITICAL alert is ever skipped.
  lemma AlertsAreConserved(states: seq<Sys>, acts: seq<Action>, n: nat)
    requires Execution(states, acts) && n <= |acts|
    ensures multiset(SentIn(states, acts, n))
            == multiset(states[n].queue) + multiset(InHand(states[n])) + multiset(states[n].logger.log)
               + multiset(SkippedIn(states, acts, n))
    ensures forall a <- SkippedIn(states, acts, n) :: a.severity != CRITICAL
  {
    HandledIsLoggedOrSkipped(states, acts, n);
    SentIsHandledOrPending(states, acts, n);
  }

  // What the pause does, in every run: an alert that the logger handles while it is paused is skipped,
  // unless it is CRITICAL; every other alert that it handles becomes the newest entry of the log; and
  // nothing else changes the log or is skipped.
  lemma PauseSkips(states: seq<Sys>, acts: seq<Action>, n: nat)
    requires Execution(states, acts) && n < |acts|
    ensures var l, log, skipped := states[n].logger, states[n + 1].logger.log, SkippedIn(states, acts, n);
            if acts[n].Step? && acts[n].t == Logger && l.pc.LgHandle? then
              if l.paused && l.pc.alert.severity != CRITICAL then
                log == l.log && SkippedIn(states, acts, n + 1) == skipped + [l.pc.alert]
              else log == l.log + [l.pc.alert] && SkippedIn(states, acts, n + 1) == skipped
            else log == l.log && SkippedIn(states, acts, n + 1) == skipped
  {
    assert StepAt(states, acts, n);
    HandlingStep(states[n], acts[n], states[n + 1]);
  }

  // The CRITICAL entries of the log are, in order, the first CRITICAL alerts that were sent; the
  // others are still in the logger's hand or in the queue.
  lemma CriticalLogIsPrefix(states: seq<Sys>, acts: seq<Action>, n: nat)
    requires Execution(states, acts) && n <= |acts|
    ensures OfSeverity(SentIn(states, acts, n), CRITICAL)
            == OfSeverity(states[n].logger.log, CRITICAL)
               + (OfSeverity(InHand(states[n]), CRITICAL) + OfSeverity(states[n].queue, CRITICAL))
    ensures OfSeverity(states[n].logger.log, CRITICAL) <= OfSeverity(SentIn(states, acts, n), CRITICAL)
  {
    SeverityInSendOrder(states, acts, n, CRITICAL);
    CriticalsAreLogged(states, acts, n);
  }

  // ----- a queued CRITICAL alert is not overtaken -----

  function Receipts(states: seq<Sys>, acts: seq<Action>, m: nat, n: nat): nat
    requires m <= n <= |acts| < |states|
  {
    if m == n then 0
    else
      Receipts(states, acts, m, n - 1)
      + (if acts[n - 1].Step? && Receives(states[n - 1], acts[n - 1].t) then 1 else 0)
  }

  // The i-th message is a CRITICAL one and keeps its place, but for the messages received before it.
  ghost predicate WaitsAt(s: Sys, i: int, a: Alert) {
    Ordered(s.queue) && 0 <= i < |s.queue| && s.queue[i] == a && a.severity == CRITICAL
  }

  lemma PlaceKept(s: Sys, act: Action, after: Sys, i: nat, a: Alert)
    requires WaitsAt(s, i, a) && Takes(s, act, after)
    ensures if act.Step? && Receives(s, act.t) then
              (if i == 0 then InHand(after) == [a] else WaitsAt(after, i - 1, a))
            else WaitsAt(after, i, a)
  {
    QueueStaysOrdered(s, act);
    if act.Step? && Sends(s, act.t).Some? {
      InsertBehindCriticals(s.queue, Sends(s, act.t).value, i);
    }
  }

  lemma InsertBehindCriticals(q: seq<Alert>, a: Alert, i: nat)
    requires Ordered(q) && i < |q| && q[i].severity == CRITICAL
    ensures Insert(q, a)[i] == q[i]
  {
    assert forall j | 0 <= j <= i :: Priority(q[j]) >= Priority(q[i]);
  }

  // The alert that stood at place i in state m still waits in state n, r places further to the front.
  ghost predicate StillWaits(states: seq<Sys>, acts: seq<Action>, m: nat, n: nat, i: nat, a: Alert)
    requires m <= n <= |acts| < |states|
  {
    Receipts(states, acts, m, n) <= i ==> WaitsAt(states[n], i - Receipts(states, acts, m, n), a)
  }

  lemma StillWaitsAt(states: seq<Sys>, acts: seq<Action>, m: nat, n: nat, i: nat, a: Alert)
    requires Path(states, acts) && m <= n < |acts| && StillWaits(states, acts, m, n, i, a)
    ensures StillWaits(states, acts, m, n + 1, i, a)
  {
    assert StepAt(states, acts, n);
    var r := Receipts(states, acts, m, n);
    if r <= i {
      PlaceKept(states[n], acts[n], states[n + 1], i - r, a);
    }
  }

  // A CRITICAL alert that stands at place i <= 9 of the queue still waits, i - r places from the
  // front, after r <= i further receipts, whatever else is sent meanwhile ...
  lemma {:induction false} NotOvertaken(states: seq<Sys>, acts: seq<Action>, m: nat, n: nat, i: nat, a: Alert)
    requires Execution(states, acts) && m <= n <= |acts|
    requires i < |states[m].queue| && states[m].queue[i] == a && a.severity == CRITICAL
    requires Receipts(states, acts, m, n) <= i
    ensures WaitsAt(states[n], i - Receipts(states, acts, m, n), a)
  {
    QueueIsOrdered(states, acts, m);
    for k := m to n
      invariant StillWaits(states, acts, m, k, i, a)
    {
      StillWaitsAt(states, acts, m, k, i, a);
    }
  }

  // ... and the receipt after those i is its own.
  lemma ReceivedAfterItsPredecessors(states: seq<Sys>, acts: seq<Action>, m: nat, n: nat, i: nat, a: Alert)
    requires Execution(states, acts) && m <= n < |acts|
    requires i < |states[m].queue| && states[m].queue[i] == a && a.severity == CRITICAL
    requires Receipts(states, acts, m, n) == i && acts[n].Step? && Receives(states[n], acts[n].t)
    ensures InHand(states[n + 1]) == [a] && i < MQ_MAX_MESSAGES
  {
    NotOvertaken(states, acts, m, n, i, a);
    assert StepAt(states, acts, n);
    PlaceKept(states[n], acts[n], states[n + 1], 0, a);
    LocksHold(states, acts, m);
  }

  // ----- the logger's pause -----

  // g_paused differs from the logger's g_safe_mode.
  predicate IsStale(s: Sys) {
    s.logger.paused != s.inbox[LOGGER_CHILD].safe
  }

  // Messages handled while g_paused differs from the logger's g_safe_mode.
  function StaleHandled(states: seq<Sys>, acts: seq<Action>, n: nat): nat
    requires n <= |acts| < |states|
  {
    if n == 0 then 0
    else
      StaleHandled(states, acts, n - 1)
      + (if Handles(states[n - 1], acts[n - 1]) && IsStale(states[n - 1]) then 1 else 0)
  }

  // Deliveries that changed the logger's g_safe_mode.
  function ModeChanges(states: seq<Sys>, acts: seq<Action>, n: nat): nat
    requires n <= |acts| < |states|
  {
    if n == 0 then 0
    else
      ModeChanges(states, acts, n - 1)
      + (if states[n].inbox[LOGGER_CHILD].safe != states[n - 1].inbox[LOGGER_CHILD].safe then 1 else 0)
  }

  // A stale decision is possible only between the pause test and the next pass of the loop.
  function StaleAhead(s: Sys): nat {
    if !s.logger.pc.LgTop? && IsStale(s) then 1 else 0
  }

  lemma StaleStep(s: Sys, a: Action, after: Sys)
    requires Takes(s, a, after)
    ensures (if Handles(s, a) && IsStale(s) then 1 else 0) + StaleAhead(after)
            <= StaleAhead(s) + (if after.inbox[LOGGER_CHILD].safe != s.inbox[LOGGER_CHILD].safe then 1 else 0)
  {
  }

  lemma StaleStepAt(states: seq<Sys>, acts: seq<Action>, n: nat)
    requires Path(states, acts) && n < |acts|
    requires StaleHandled(states, acts, n) + StaleAhead(states[n]) <= ModeChanges(states, acts, n)
    ensures StaleHandled(states, acts, n + 1) + StaleAhead(states[n + 1]) <= ModeChanges(states, acts, n + 1)
  {
    assert StepAt(states, acts, n);
    StaleStep(states[n], acts[n], states[n + 1]);
  }

  lemma StaleDecisionsAreBounded(states: seq<Sys>, acts: seq<Action>, n: nat)
    requires Execution(states, acts) && n <= |acts|
    ensures StaleHandled(states, acts, n) + StaleAhead(states[n]) <= ModeChanges(states, acts, n)
  {
    for k := 0 to n
      invariant StaleHandled(states, acts, k) + StaleAhead(states[k]) <= ModeChanges(states, acts, k)
    {
      StaleStepAt(states, acts, k);
    }
  }
}
