/**
 The safe-mode protocol: the OBC broadcasts a mode by signals, the children follow it, and the
 power process copies its own view of the mode onto the bus that the OBC decides from.
 */
module SafeMode {
  import opened Spacecraft

  predicate NothingPending(i: Inbox) {
    !i.usr1 && !i.usr2
  }

  // watchdog() begins a broadcast.
  predicate StartsBroadcast(s: Sys, a: Action) {
    a.Step? && a.t == Watchdog && s.obc.pc.WDecide? && (EntersSafe(s.obc) || LeavesSafe(s.obc))
  }

  // The hypothesis under which agreement is promised: whenever a broadcast begins, every child has
  // handled the signals of the one before.
  ghost predicate Timely(states: seq<Sys>, acts: seq<Action>) {
    forall k, c | 0 <= k < |acts| < |states| && 0 <= c < 4 && StartsBroadcast(states[k], acts[k]) ::
      NothingPending(states[k].inbox[c])
  }

  // A child follows `mode`: it has it already, or exactly the signal for it is pending.
  predicate Follows(i: Inbox, mode: bool) {
    (NothingPending(i) && i.safe == mode) || (i.usr1 == mode && i.usr2 == !mode)
  }

  // The broadcast in progress has not reached child c yet.
  predicate Unreached(o: Obc, c: int) {
    o.pc.WKill? && o.pc.child <= c
  }

  predicate ChildInv(s: Sys, c: int)
    requires 0 <= c < 4
  {
    if Unreached(s.obc, c) then NothingPending(s.inbox[c]) else Follows(s.inbox[c], s.obc.last)
  }

  // What the watchdog still has to send and to write is the mode it last decided on.
  predicate ObcInv(o: Obc) {
    o.pc.WKill? || o.pc.WSem2? || o.pc.WWrite? ==> o.pc.safe == o.last
  }

  lemma ObcInvStep(s: Sys, a: Action, after: Sys)
    requires Takes(s, a, after) && ObcInv(s.obc)
    ensures ObcInv(after.obc)
    ensures !StartsBroadcast(s, a) ==> after.obc.last == s.obc.last
  {
  }

  lemma ChildInvStep(s: Sys, a: Action, after: Sys, c: int)
    requires Takes(s, a, after) && 0 <= c < 4 && ObcInv(s.obc) && ChildInv(s, c)
    requires StartsBroadcast(s, a) ==> NothingPending(s.inbox[c])
    ensures ChildInv(after, c)
  {
  }

  // No broadcast begins after action b and before action n.
  ghost predicate QuietBetween(states: seq<Sys>, acts: seq<Action>, b: int, n: int) {
    forall k | b < k < n <= |acts| < |states| && 0 <= k :: !StartsBroadcast(states[k], acts[k])
  }

  lemma ChildInvAt(states: seq<Sys>, acts: seq<Action>, m: nat, n: nat, c: int)
    requires Path(states, acts) && m <= n <= |acts| && 0 <= c < 4 && QuietBetween(states, acts, m - 1, n)
    requires ObcInv(states[m].obc) && ChildInv(states[m], c)
    ensures ObcInv(states[n].obc) && ChildInv(states[n], c)
  {
    for k := m to n
      invariant ObcInv(states[k].obc) && ChildInv(states[k], c)
    {
      assert StepAt(states, acts, k);
      assert !StartsBroadcast(states[k], acts[k]);
      ObcInvStep(states[k], acts[k], states[k + 1]);
      ChildInvStep(states[k], acts[k], states[k + 1], c);
    }
  }

  lemma BroadcastBegins(s: Sys, a: Action, after: Sys, c: int)
    requires Takes(s, a, after) && 0 <= c < 4 && StartsBroadcast(s, a) && NothingPending(s.inbox[c])
    ensures ObcInv(after.obc) && ChildInv(after, c)
  {
  }

  // A broadcast that finds nothing pending for a child is obeyed by that child, whatever became of the
  // broadcasts before it and of the other children: from the kill() on, and until the next broadcast
  // begins, the child is in the mode broadcast or has exactly that signal pending.
  lemma BroadcastIsFollowed(states: seq<Sys>, acts: seq<Action>, b: nat, n: nat, c: int)
    requires Execution(states, acts) && b < n <= |acts| && 0 <= c < 4
    requires StartsBroadcast(states[b], acts[b]) && NothingPending(states[b].inbox[c])
    requires QuietBetween(states, acts, b, n)
    ensures ChildInv(states[n], c)
    ensures !Unreached(states[n].obc, c) ==> Follows(states[n].inbox[c], states[n].obc.last)
  {
    assert StepAt(states, acts, b);
    BroadcastBegins(states[b], acts[b], states[b + 1], c);
    ChildInvAt(states, acts, b + 1, n, c);
  }

  // The latest broadcast begun among the first n actions; -1 if there is none.
  function LatestBroadcast(states: seq<Sys>, acts: seq<Action>, n: nat): (b: int)
    requires n <= |acts| < |states|
    ensures -1 <= b < n && (b >= 0 ==> StartsBroadcast(states[b], acts[b]))
    ensures forall k | b < k < n :: !StartsBroadcast(states[k], acts[k])
  {
    if n == 0 then -1
    else if StartsBroadcast(states[n - 1], acts[n - 1]) then n - 1
    else LatestBroadcast(states, acts, n - 1)
  }

  // Safe-mode agreement: at every moment of a timely run each child that the current broadcast has
  // reached is in the mode broadcast last, or has exactly that signal pending.
  lemma ChildrenAgree(states: seq<Sys>, acts: seq<Action>, n: nat, c: int)
    requires Execution(states, acts) && n <= |acts| && Timely(states, acts) && 0 <= c < 4
    ensures !Unreached(states[n].obc, c) ==> Follows(states[n].inbox[c], states[n].obc.last)
    ensures ObcInv(states[n].obc)
  {
    ObcKeepsItsWord(states, acts, n);
    var b := LatestBroadcast(states, acts, n);
    if b < 0 {
      ChildInvAt(states, acts, 0, n, c);
    } else {
      BroadcastIsFollowed(states, acts, b, n, c);
    }
  }

  // ----- the hypothesis is needed -----

  // The child's state once it has handled everything pending, the given signal first.
  function Drained(i: Inbox, first: bool): Inbox {
    var once := if (if first then i.usr1 else i.usr2) then Handled(i, first) else i;
    if (if first then once.usr2 else once.usr1) then Handled(once, !first) else once
  }

  // A new broadcast is obeyed in every order of delivery if and only if no signal for the opposite
  // mode was still pending when it was sent.
  lemma OnlyTimelyBroadcastsAreObeyed(i: Inbox, mode: bool)
    ensures (forall first :: Drained(Kill(i, mode), first).safe == mode) <==> !(if mode then i.usr2 else i.usr1)
  {
    assert Drained(Kill(i, mode), mode).safe == mode <==> !(if mode then i.usr2 else i.usr1);
  }

  // ----- the bus -----

  // The power process has handled the last broadcast, which has reached it.
  predicate PowerHeard(s: Sys) {
    !Unreached(s.obc, POWER_CHILD) && NothingPending(s.inbox[POWER_CHILD]) && s.inbox[POWER_CHILD].safe == s.obc.last
  }

  lemma ObcKeepsItsWord(states: seq<Sys>, acts: seq<Action>, n: nat)
    requires Execution(states, acts) && n <= |acts|
    ensures ObcInv(states[n].obc)
  {
    for k := 0 to n
      invariant ObcInv(states[k].obc)
    {
      assert StepAt(states, acts, k);
      ObcInvStep(states[k], acts[k], states[k + 1]);
    }
  }
}
