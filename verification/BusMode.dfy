/**
 The mode on the bus. The watchdog writes it after a broadcast; the power bus writer loads its own
 g_safe_mode and, one step later, stores what it has loaded. A signal handled in between makes the
 stored mode a stale one.
 */
module BusMode {
  import opened Alerts
  import opened Spacecraft
  import opened Locks
  import opened SafeMode

  predicate LoadsMode(s: Sys, a: Action) {
    a.Step? && a.t == PowerBus && s.power.bus.PbLoad?
  }

  predicate StoresMode(s: Sys, a: Action) {
    a.Step? && a.t == PowerBus && s.power.bus.PbMode?
  }

  predicate WatchdogWrites(s: Sys, a: Action) {
    a.Step? && a.t == Watchdog && s.obc.pc.WWrite?
  }

  // The latest load, and the latest store, among the first n actions; -1 if there is none.
  function LoadBefore(states: seq<Sys>, acts: seq<Action>, n: nat): (k: int)
    requires n <= |acts| < |states|
    ensures -1 <= k < n && (k >= 0 ==> LoadsMode(states[k], acts[k]))
  {
    if n == 0 then -1
    else if LoadsMode(states[n - 1], acts[n - 1]) then n - 1
    else LoadBefore(states, acts, n - 1)
  }

  function StoreBefore(states: seq<Sys>, acts: seq<Action>, n: nat): (k: int)
    requires n <= |acts| < |states|
    ensures -1 <= k < n && (k >= 0 ==> StoresMode(states[k], acts[k]))
  {
    if n == 0 then -1
    else if StoresMode(states[n - 1], acts[n - 1]) then n - 1
    else StoreBefore(states, acts, n - 1)
  }

  // The load whose value the latest store has put on the bus.
  function LoadBehind(states: seq<Sys>, acts: seq<Action>, n: nat): (k: int)
    requires n <= |acts| < |states|
    ensures -1 <= k < n && (k >= 0 ==> LoadsMode(states[k], acts[k]))
  {
    var store := StoreBefore(states, acts, n);
    if store < 0 then -1 else LoadBefore(states, acts, store)
  }

  // What power's g_safe_mode was at instant k.
  function PowerMode(states: seq<Sys>, k: int): bool
    requires 0 <= k < |states|
  {
    states[k].inbox[POWER_CHILD].safe
  }

  // ----- one step -----

  lemma CopyStep(s: Sys, a: Action, after: Sys)
    requires Takes(s, a, after)
    ensures LoadsMode(s, a) ==> after.power.bus == PbMode(s.inbox[POWER_CHILD].safe)
    ensures !LoadsMode(s, a) && after.power.bus.PbMode? ==> after.power.bus == s.power.bus && !StoresMode(s, a)
    ensures StoresMode(s, a) ==> after.bus.safe == s.power.bus.mode
    ensures WatchdogWrites(s, a) ==> after.bus.safe == s.obc.pc.safe
    ensures !StoresMode(s, a) && !WatchdogWrites(s, a) ==> after.bus.safe == s.bus.safe
  {
  }

  // The watchdog writes while the bus writer is outside its critical section.
  lemma WriterIsOut(s: Sys)
    requires LockInv(s) && s.obc.pc.WWrite?
    ensures !s.power.bus.PbMode?
  {
    assert HoldsSem(s, Watchdog);
    assert s.sem != Some(PowerBus);
    assert !HoldsSem(s, PowerBus);
  }

  lemma WriterIsOutAt(states: seq<Sys>, acts: seq<Action>, k: nat)
    requires Execution(states, acts) && k < |acts| && WatchdogWrites(states[k], acts[k])
    ensures !states[k].power.bus.PbMode?
  {
    LocksHold(states, acts, k);
    WriterIsOut(states[k]);
  }

  // ----- the power process and one broadcast -----

  // The broadcast of `mode` has begun; before it the mode was `before`.
  predicate Phase(s: Sys, before: bool, mode: bool, handled: bool) {
    var i := s.inbox[POWER_CHILD];
    && s.obc.last == mode && ObcInv(s.obc)
    && (if handled then PowerHeard(s)
        else
          && i.safe == before
          && if Unreached(s.obc, POWER_CHILD) then NothingPending(i) else i.usr1 == mode && i.usr2 == !mode)
  }

  lemma PhaseStep(s: Sys, a: Action, after: Sys, before: bool, mode: bool, handled: bool)
    requires Takes(s, a, after) && Phase(s, before, mode, handled) && !StartsBroadcast(s, a)
    ensures Phase(after, before, mode, handled || a == Deliver(POWER_CHILD, mode))
  {
  }

  lemma PhaseBegins(s: Sys, a: Action, after: Sys)
    requires Takes(s, a, after) && StartsBroadcast(s, a) && NothingPending(s.inbox[POWER_CHILD])
    ensures Phase(after, s.inbox[POWER_CHILD].safe, after.obc.last, false)
  {
  }

  // The power process handles the signal for `mode` after action b and before action k.
  ghost predicate HandledBetween(acts: seq<Action>, b: int, k: int, mode: bool) {
    exists h :: b < h < k <= |acts| && 0 <= h && acts[h] == Deliver(POWER_CHILD, mode)
  }

  lemma HandledOneMore(acts: seq<Action>, b: nat, k: nat, mode: bool)
    requires b < k < |acts|
    ensures HandledBetween(acts, b, k + 1, mode)
        <==> HandledBetween(acts, b, k, mode) || acts[k] == Deliver(POWER_CHILD, mode)
  {
  }

  // A broadcast that finds nothing pending for the power process begins at b.
  predicate BroadcastAt(states: seq<Sys>, acts: seq<Action>, b: int) {
    0 <= b < |acts| < |states| && StartsBroadcast(states[b], acts[b]) && NothingPending(states[b].inbox[POWER_CHILD])
  }

  lemma PhaseAt(states: seq<Sys>, acts: seq<Action>, b: nat, n: nat)
    requires Execution(states, acts) && b < n <= |acts| && BroadcastAt(states, acts, b)
    requires QuietBetween(states, acts, b, n)
    ensures var mode := states[b + 1].obc.last;
            Phase(states[n], PowerMode(states, b), mode, HandledBetween(acts, b, n, mode))
  {
    var before, mode := PowerMode(states, b), states[b + 1].obc.last;
    assert StepAt(states, acts, b);
    PhaseBegins(states[b], acts[b], states[b + 1]);
    for k := b + 1 to n
      invariant Phase(states[k], before, mode, HandledBetween(acts, b, k, mode))
    {
      assert StepAt(states, acts, k);
      assert !StartsBroadcast(states[k], acts[k]);
      PhaseStep(states[k], acts[k], states[k + 1], before, mode, HandledBetween(acts, b, k, mode));
      HandledOneMore(acts, b, k, mode);
    }
  }

  // ----- the bus after the watchdog's write -----

  predicate NotBroadcasting(o: Obc) {
    !o.pc.WKill? && !o.pc.WSem2? && !o.pc.WWrite?
  }

  lemma NotBroadcastingStep(s: Sys, a: Action, after: Sys)
    requires Takes(s, a, after) && !StartsBroadcast(s, a) && (NotBroadcasting(s.obc) || WatchdogWrites(s, a))
    ensures NotBroadcasting(after.obc)
  {
  }

  // The bus shows what the latest store after w has stored, or else what the watchdog wrote at w.
  predicate ShownSince(states: seq<Sys>, acts: seq<Action>, w: nat, n: nat, mode: bool)
    requires w < n <= |acts| < |states|
  {
    && NotBroadcasting(states[n].obc)
    && (states[n].power.bus.PbMode? ==>
          LoadBefore(states, acts, n) > w && states[n].power.bus.mode == PowerMode(states, LoadBefore(states, acts, n)))
    && (if StoreBefore(states, acts, n) < w then states[n].bus.safe == mode
        else LoadBehind(states, acts, n) > w && states[n].bus.safe == PowerMode(states, LoadBehind(states, acts, n)))
  }

  lemma ShownSinceStep(states: seq<Sys>, acts: seq<Action>, w: nat, n: nat, mode: bool)
    requires Path(states, acts) && w < n < |acts| && !StartsBroadcast(states[n], acts[n])
    requires ShownSince(states, acts, w, n, mode)
    ensures ShownSince(states, acts, w, n + 1, mode)
  {
    assert StepAt(states, acts, n);
    CopyStep(states[n], acts[n], states[n + 1]);
    NotBroadcastingStep(states[n], acts[n], states[n + 1]);
  }

  lemma ShownAfterWrite(states: seq<Sys>, acts: seq<Action>, w: nat)
    requires Execution(states, acts) && w < |acts| && WatchdogWrites(states[w], acts[w])
    ensures ShownSince(states, acts, w, w + 1, states[w].obc.last)
  {
    assert StepAt(states, acts, w);
    ObcKeepsItsWord(states, acts, w);
    WriterIsOutAt(states, acts, w);
    CopyStep(states[w], acts[w], states[w + 1]);
    NotBroadcastingStep(states[w], acts[w], states[w + 1]);
  }

  lemma ShownAt(states: seq<Sys>, acts: seq<Action>, w: nat, n: nat)
    requires Execution(states, acts) && w < n <= |acts| && WatchdogWrites(states[w], acts[w])
    requires QuietBetween(states, acts, w, n)
    ensures ShownSince(states, acts, w, n, states[w].obc.last)
  {
    var mode := states[w].obc.last;
    ShownAfterWrite(states, acts, w);
    for k := w + 1 to n
      invariant ShownSince(states, acts, w, k, mode)
    {
      assert !StartsBroadcast(states[k], acts[k]);
      ShownSinceStep(states, acts, w, k, mode);
    }
  }

  // Nothing stale has been stored since the watchdog's write at w for the broadcast begun at b: the
  // power process was in that mode already, or no store has come since the write, or the load behind
  // the latest store came after the power process had handled the broadcast.
  ghost predicate NothingStale(states: seq<Sys>, acts: seq<Action>, b: nat, w: nat, n: nat)
    requires b < |acts| < |states| && n <= |acts|
  {
    || PowerMode(states, b) == states[b + 1].obc.last
    || StoreBefore(states, acts, n) < w
    || HandledBetween(acts, b, LoadBehind(states, acts, n), states[b + 1].obc.last)
  }

  // A broadcast begins at b with nothing pending for the power process, the watchdog writes the mode
  // at w, and no other broadcast begins before n: at n the bus shows the mode broadcast last if and only
  // if nothing stale has been stored.
  lemma {:induction false} BusIsRightIff(states: seq<Sys>, acts: seq<Action>, b: nat, w: nat, n: nat)
    requires Execution(states, acts) && b < w < n <= |acts|
    requires BroadcastAt(states, acts, b) && WatchdogWrites(states[w], acts[w]) && QuietBetween(states, acts, b, n)
    ensures (states[n].bus.safe == states[n].obc.last) <==> NothingStale(states, acts, b, w, n)
  {
    PhaseAt(states, acts, b, w);
    PhaseAt(states, acts, b, n);
    ShownAt(states, acts, w, n);
    if StoreBefore(states, acts, n) >= w {
      PhaseAt(states, acts, b, LoadBehind(states, acts, n));
    }
  }

  // ----- agreement -----

  // A write at w that cannot be stale, power having handled the broadcast at m.
  predicate FreshWrite(states: seq<Sys>, acts: seq<Action>, m: nat, w: nat)
    requires w < |acts| < |states|
  {
    WatchdogWrites(states[w], acts[w]) || (StoresMode(states[w], acts[w]) && LoadBefore(states, acts, w) >= m)
  }

  lemma HeardStep(s: Sys, a: Action, after: Sys)
    requires Takes(s, a, after) && ObcInv(s.obc) && PowerHeard(s) && !StartsBroadcast(s, a)
    ensures PowerHeard(after) && after.obc.last == s.obc.last
  {
  }

  // Power has handled the broadcast of `mode`. `recent` says that the latest load came after that, `past`
  // that a fresh write has been made.
  predicate AgreedIn(s: Sys, mode: bool, recent: bool, past: bool) {
    && ObcInv(s.obc) && PowerHeard(s) && s.obc.last == mode
    && (s.power.bus.PbMode? && recent ==> s.power.bus.mode == mode)
    && (past ==> s.bus.safe == mode && (s.power.bus.PbMode? ==> recent))
  }

  lemma AgreedInStep(s: Sys, a: Action, after: Sys, mode: bool, recent: bool, past: bool, past': bool)
    requires Takes(s, a, after) && !StartsBroadcast(s, a) && AgreedIn(s, mode, recent, past)
    requires WatchdogWrites(s, a) ==> !s.power.bus.PbMode?
    requires past' ==> past || WatchdogWrites(s, a) || (StoresMode(s, a) && recent)
    ensures AgreedIn(after, mode, recent || LoadsMode(s, a), past')
  {
    ObcInvStep(s, a, after);
    HeardStep(s, a, after);
    CopyStep(s, a, after);
  }

  ghost predicate Agreed(states: seq<Sys>, acts: seq<Action>, m: nat, w: nat, k: nat)
    requires m <= k <= |acts| < |states|
  {
    AgreedIn(states[k], states[m].obc.last, LoadBefore(states, acts, k) >= m, k > w)
  }

  lemma RecentLoad(states: seq<Sys>, acts: seq<Action>, m: nat, k: nat)
    requires m <= k < |acts| < |states|
    ensures LoadBefore(states, acts, k + 1) >= m <==> LoadBefore(states, acts, k) >= m || LoadsMode(states[k], acts[k])
  {
  }

  lemma AgreedInStepAt(states: seq<Sys>, acts: seq<Action>, k: nat, mode: bool, recent: bool, past: bool, past': bool)
    requires Execution(states, acts) && k < |acts| && !StartsBroadcast(states[k], acts[k])
    requires AgreedIn(states[k], mode, recent, past)
    requires past' ==> past || WatchdogWrites(states[k], acts[k]) || (StoresMode(states[k], acts[k]) && recent)
    ensures AgreedIn(states[k + 1], mode, recent || LoadsMode(states[k], acts[k]), past')
  {
    assert StepAt(states, acts, k);
    if WatchdogWrites(states[k], acts[k]) {
      WriterIsOutAt(states, acts, k);
    }
    AgreedInStep(states[k], acts[k], states[k + 1], mode, recent, past, past');
  }

  lemma AgreedStep(states: seq<Sys>, acts: seq<Action>, m: nat, w: nat, k: nat)
    requires Execution(states, acts) && m <= k < |acts| && m <= w < |acts|
    requires FreshWrite(states, acts, m, w) && !StartsBroadcast(states[k], acts[k]) && Agreed(states, acts, m, w, k)
    ensures Agreed(states, acts, m, w, k + 1)
  {
    RecentLoad(states, acts, m, k);
    AgreedInStepAt(states, acts, k, states[m].obc.last, LoadBefore(states, acts, k) >= m, k > w, k + 1 > w);
  }

  lemma AgreedAtFirst(states: seq<Sys>, acts: seq<Action>, m: nat, w: nat)
    requires Execution(states, acts) && m <= w < |acts| && PowerHeard(states[m])
    ensures Agreed(states, acts, m, w, m)
  {
    ObcKeepsItsWord(states, acts, m);
  }

  lemma AgreedAt(states: seq<Sys>, acts: seq<Action>, m: nat, w: nat, n: nat)
    requires Execution(states, acts) && m <= w < |acts| && m <= n <= |acts|
    requires PowerHeard(states[m]) && FreshWrite(states, acts, m, w) && QuietBetween(states, acts, m - 1, n)
    ensures Agreed(states, acts, m, w, n)
  {
    AgreedAtFirst(states, acts, m, w);
    for k := m to n
      invariant Agreed(states, acts, m, w, k)
    {
      assert !StartsBroadcast(states[k], acts[k]);
      AgreedStep(states, acts, m, w, k);
    }
  }

  // Stale stores end: once the power process has handled a broadcast, the watchdog's write, or any pass
  // of the bus writer that loads the mode after that, makes the bus show the mode broadcast last,
  // and so it stays until the next broadcast begins.
  lemma BusAgrees(states: seq<Sys>, acts: seq<Action>, m: nat, w: nat, n: nat)
    requires Execution(states, acts) && m <= w < n <= |acts|
    requires PowerHeard(states[m]) && FreshWrite(states, acts, m, w) && QuietBetween(states, acts, m - 1, n)
    ensures states[n].bus.safe == states[n].obc.last == states[m].obc.last
  {
    AgreedAt(states, acts, m, w, n);
  }
}
