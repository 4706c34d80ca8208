/** The on-board computer taken alone: main.c and the broadcasts of signals/signal_handler.c. */
module ObcUnit {
  import opened Alerts
  import opened Spacecraft
  import opened SharedMemory

  // What the watchdog reads of the telemetry, besides the mode.
  datatype Reading = Reading(battery: int, cpu: int, solar: int)

  predicate Dangerous(r: Reading) {
    r.battery <= BATTERY_CRITICAL || r.cpu >= TEMP_CRITICAL
  }

  predicate Clear(r: Reading) {
    r.battery > BATTERY_WARNING && r.cpu < TEMP_WARNING && r.solar > 0
  }

  // The mode once the watchdog has seen r while the bus said `safe`.
  function ModeAfter(safe: bool, r: Reading): bool {
    if safe then !Clear(r) else Dangerous(r)
  }

  // A watchdog that is run again on unchanged telemetry decides nothing.
  lemma DecisionsAreStable(safe: bool, r: Reading)
    ensures ModeAfter(ModeAfter(safe, r), r) == ModeAfter(safe, r)
  {
  }

  // The decision step of the transition system takes exactly these decisions.
  lemma DecisionStep(o: Obc, b: Bus)
    requires o.pc == WDecide
    ensures var mode := ModeAfter(o.safe, Reading(o.batt, o.temp, o.solar));
            WatchdogNext(o, b) == if mode == o.safe then o.(pc := WAsleep) else o.(last := mode, pc := WKill(0, mode))
  {
  }

  // What the other processes leave on the bus in one second: telemetry, and the mode if one overwrites it.
  datatype Second = Second(r: Reading, overwrite: Option<bool>)

  function ModeIn(safe: bool, s: Second): bool {
    if s.overwrite.Some? then s.overwrite.value else safe
  }

  // The watchdog runs on every second tick.
  predicate Watched(tick: nat) {
    tick % 2 == 0
  }

  function ModeOver(safe: bool, tick: nat, s: Second): bool {
    if Watched(tick) then ModeAfter(ModeIn(safe, s), s.r) else ModeIn(safe, s)
  }

  // Mode and broadcasts of a computer that starts in mode `safe` after `tick` ticks.
  function ModeAt(safe: bool, tick: nat, seconds: seq<Second>): bool {
    if seconds == [] then safe
    else
      var n := |seconds| - 1;
      ModeOver(ModeAt(safe, tick, seconds[..n]), tick + n + 1, seconds[n])
  }

  function BroadcastIn(safe: bool, tick: nat, s: Second): seq<bool> {
    if ModeOver(safe, tick, s) != ModeIn(safe, s) then [ModeOver(safe, tick, s)] else []
  }

  function BroadcastsOf(safe: bool, tick: nat, seconds: seq<Second>): seq<bool> {
    if seconds == [] then []
    else
      var n := |seconds| - 1;
      BroadcastsOf(safe, tick, seconds[..n]) + BroadcastIn(ModeAt(safe, tick, seconds[..n]), tick + n + 1, seconds[n])
  }

  // ----- the mode as a function of what has happened -----

  // A second after which the mode is SAFE, or NORMAL, whatever it was before.
  predicate SetsSafe(tick: nat, s: Second) {
    (Watched(tick) && Dangerous(s.r)) || (s.overwrite == Some(true) && !(Watched(tick) && Clear(s.r)))
  }

  predicate SetsNormal(tick: nat, s: Second) {
    (Watched(tick) && Clear(s.r)) || (s.overwrite == Some(false) && !(Watched(tick) && Dangerous(s.r)))
  }

  predicate SafeStands(tick: nat, seconds: seq<Second>) {
    exists i | 0 <= i < |seconds| ::
      SetsSafe(tick + i + 1, seconds[i]) && forall j | i < j < |seconds| :: !SetsNormal(tick + j + 1, seconds[j])
  }

  lemma SafeStandsLonger(tick: nat, seconds: seq<Second>, s: Second)
    requires SafeStands(tick, seconds) && !SetsNormal(tick + |seconds| + 1, s)
    ensures SafeStands(tick, seconds + [s])
  {
    var i :| 0 <= i < |seconds| && SetsSafe(tick + i + 1, seconds[i])
             && forall j | i < j < |seconds| :: !SetsNormal(tick + j + 1, seconds[j]);
    assert SetsSafe(tick + i + 1, (seconds + [s])[i]);
  }

  lemma SafeStoodBefore(tick: nat, seconds: seq<Second>, s: Second)
    requires SafeStands(tick, seconds + [s]) && !SetsSafe(tick + |seconds| + 1, s)
    ensures SafeStands(tick, seconds) && !SetsNormal(tick + |seconds| + 1, s)
  {
    var all := seconds + [s];
    var i :| 0 <= i < |all| && SetsSafe(tick + i + 1, all[i])
        && forall j | i < j < |all| :: !SetsNormal(tick + j + 1, all[j]);
    assert SetsSafe(tick + i + 1, seconds[i]) && !SetsNormal(tick + |seconds| + 1, all[|seconds|]);
    assert forall j | 0 <= j < |seconds| :: all[j] == seconds[j];
  }

  lemma SafeStandsStep(tick: nat, seconds: seq<Second>, s: Second)
    ensures var now := tick + |seconds| + 1;
            SafeStands(tick, seconds + [s]) <==> SetsSafe(now, s) || (SafeStands(tick, seconds) && !SetsNormal(now, s))
  {
    if SetsSafe(tick + |seconds| + 1, s) {
      assert (seconds + [s])[|seconds|] == s;
    } else if SafeStands(tick, seconds + [s]) {
      SafeStoodBefore(tick, seconds, s);
    } else if SafeStands(tick, seconds) && !SetsNormal(tick + |seconds| + 1, s) {
      SafeStandsLonger(tick, seconds, s);
    }
  }

  // The mode is SAFE iff the last second that set it one way or the other set it to SAFE: a dangerous
  // reading or an overwriting SAFE, not followed by a clear reading or an overwriting NORMAL.
  lemma {:induction false} ModeIsHistory(tick: nat, seconds: seq<Second>)
    ensures ModeAt(false, tick, seconds) <==> SafeStands(tick, seconds)
  {
    if seconds == [] {
    } else {
      var n := |seconds| - 1;
      ModeIsHistory(tick, seconds[..n]);
      SafeStandsStep(tick, seconds[..n], seconds[n]);
      assert seconds[..n] + [seconds[n]] == seconds;
    }
  }

  // ----- the broadcasts -----

  function LastOf(first: bool, modes: seq<bool>): bool {
    if modes == [] then first else modes[|modes| - 1]
  }

  // Broadcasts of the mode broadcast before.
  function Repeats(first: bool, modes: seq<bool>): nat {
    if modes == [] then 0
    else
      var n := |modes| - 1;
      Repeats(first, modes[..n]) + (if modes[n] == LastOf(first, modes[..n]) then 1 else 0)
  }

  function Overwrites(seconds: seq<Second>): nat {
    if seconds == [] then 0
    else Overwrites(seconds[..|seconds| - 1]) + (if seconds[|seconds| - 1].overwrite.Some? then 1 else 0)
  }

  lemma RepeatsGrow(first: bool, modes: seq<bool>, more: seq<bool>)
    requires |more| <= 1
    ensures Repeats(first, modes + more) == Repeats(first, modes) + (if more == [LastOf(first, modes)] then 1 else 0)
    ensures LastOf(first, modes + more) == LastOf(LastOf(first, modes), more)
  {
    if more == [] {
      assert modes + more == modes;
    } else {
      assert (modes + more)[..|modes|] == modes;
    }
  }

  // The watchdog broadcasts the same mode twice running at most as often as another process overwrites
  // the mode on the bus.
  lemma {:induction false} RepeatsNeedOverwrites(safe: bool, tick: nat, seconds: seq<Second>)
    ensures var sent := BroadcastsOf(safe, tick, seconds);
            Repeats(safe, sent) + (if ModeAt(safe, tick, seconds) == LastOf(safe, sent) then 0 else 1)
            <= Overwrites(seconds)
  {
    if seconds == [] {
    } else {
      var n := |seconds| - 1;
      RepeatsNeedOverwrites(safe, tick, seconds[..n]);
      RepeatsGrow(safe, BroadcastsOf(safe, tick, seconds[..n]),
                  BroadcastIn(ModeAt(safe, tick, seconds[..n]), tick + n + 1, seconds[n]));
    }
  }

  predicate Alternates(modes: seq<bool>, first: bool) {
    forall k | 0 <= k < |modes| :: modes[k] == (if k % 2 == 0 then first else !first)
  }

  lemma {:induction false} NoRepeatsAlternate(first: bool, modes: seq<bool>)
    requires Repeats(first, modes) == 0
    ensures Alternates(modes, !first) && LastOf(first, modes) == (first == (|modes| % 2 == 0))
  {
    if modes == [] {
    } else {
      NoRepeatsAlternate(first, modes[..|modes| - 1]);
    }
  }

  // Without overwriting, the broadcasts alternate, and the last one is the current mode.
  lemma BroadcastsAlternate(safe: bool, tick: nat, seconds: seq<Second>)
    requires Overwrites(seconds) == 0
    ensures Alternates(BroadcastsOf(safe, tick, seconds), !safe)
    ensures ModeAt(safe, tick, seconds) == LastOf(safe, BroadcastsOf(safe, tick, seconds))
    ensures ModeAt(safe, tick, seconds) == (safe == (|BroadcastsOf(safe, tick, seconds)| % 2 == 0))
  {
    RepeatsNeedOverwrites(safe, tick, seconds);
    NoRepeatsAlternate(safe, BroadcastsOf(safe, tick, seconds));
  }

  // What one kill() after another leaves pending: a child whose pid is not positive gets nothing.
  predicate OnlyLiveSignalled(before: Inboxes, after: Inboxes, pids: seq<int>, safe: bool)
    requires |pids| == 4
  {
    forall c | 0 <= c < 4 :: after[c] == if pids[c] > 0 then Kill(before[c], safe) else before[c]
  }

  class OnBoardComputer {
    const bus: TelemetryBus
    var pids: seq<int>
    var inbox: Inboxes
    var tick: nat
    var broadcasts: seq<bool>

    predicate Valid()
      reads this
    {
      |pids| == 4
    }

    function Telemetry(): Reading
      reads bus
    {
      Reading(bus.battery, bus.cpu, bus.solar)
    }

    constructor (bus: TelemetryBus, pids: seq<int>, inbox: Inboxes)
      requires |pids| == 4
      ensures Valid() && this.bus == bus && this.pids == pids && this.inbox == inbox
      ensures tick == 0 && broadcasts == []
    {
      this.bus, this.pids, this.inbox := bus, pids, inbox;
      tick, broadcasts := 0, [];
    }

    // One of the four tests of a broadcast, with its kill().
    method SignalChild(c: nat, safe: bool)
      requires Valid() && c < 4
      modifies `inbox
      ensures inbox == if pids[c] > 0 then old(inbox)[c := Kill(old(inbox)[c], safe)] else old(inbox)
    {
      if pids[c] > 0 {
        inbox := inbox[c := Kill(inbox[c], safe)];
      }
    }

    // broadcast_safe_mode() and broadcast_safe_mode_exit(), which differ in the signal alone.
    method Broadcast(safe: bool)
      requires Valid()
      modifies `inbox, `broadcasts
      ensures OnlyLiveSignalled(old(inbox), inbox, pids, safe)
      ensures forall c | 0 <= c < 4 && pids[c] <= 0 :: inbox[c] == old(inbox)[c]
      ensures forall c | 0 <= c < 4 && pids[c] > 0 ::
                inbox[c] == if safe then old(inbox)[c].(usr1 := true) else old(inbox)[c].(usr2 := true)
      ensures broadcasts == old(broadcasts) + [safe]
    {
      SignalChild(POWER_CHILD, safe);
      SignalChild(THERMAL_CHILD, safe);
      SignalChild(COMMS_CHILD, safe);
      SignalChild(LOGGER_CHILD, safe);
      broadcasts := broadcasts + [safe];
    }

    // watchdog(): if the telemetry calls for another mode, every live child is signalled and the bus
    // shows the new mode; if not, nothing changes.
    method RunWatchdog()
      requires Valid()
      modifies bus`safe, `inbox, `broadcasts
      ensures bus.safe == if old(bus.safe) then bus.battery <= 20 || bus.cpu >= 85 || bus.solar <= 0
                          else bus.battery <= 10 || bus.cpu >= 95
      ensures bus.safe == ModeAfter(old(bus.safe), Telemetry())
      ensures broadcasts == old(broadcasts) + (if bus.safe == old(bus.safe) then [] else [bus.safe])
      ensures bus.safe == old(bus.safe) ==> inbox == old(inbox)
      ensures bus.safe != old(bus.safe) ==> OnlyLiveSignalled(old(inbox), inbox, pids, bus.safe)
    {
      var batt, temp, solar, safe := bus.battery, bus.cpu, bus.solar, bus.safe;
      if !safe && (batt <= BATTERY_CRITICAL || temp >= TEMP_CRITICAL) {
        Broadcast(true);
        bus.safe := true;
      }
      if safe && batt > BATTERY_WARNING && temp < TEMP_WARNING && solar > 0 {
        Broadcast(false);
        bus.safe := false;
      }
    }

    // One pass of main()'s loop; during sleep(1) the other processes have left s on the bus.
    method OneSecond(s: Second)
      requires Valid()
      modifies bus, `inbox, `tick, `broadcasts
      ensures tick == old(tick) + 1 && Telemetry() == s.r
      ensures bus.safe == ModeOver(old(bus.safe), tick, s)
      ensures broadcasts == old(broadcasts) + BroadcastIn(old(bus.safe), tick, s)
      ensures tick % 2 == 1 ==>
                broadcasts == old(broadcasts) && inbox == old(inbox)
                && bus.safe == if s.overwrite.Some? then s.overwrite.value else old(bus.safe)
      ensures tick % 2 == 0 && s.r.battery <= 10 ==> bus.safe
      ensures tick % 2 == 0 && s.r.cpu >= 95 ==> bus.safe
      ensures tick % 2 == 0 && s.r.battery > 20 && s.r.cpu < 85 && s.r.solar > 0 ==> !bus.safe
      ensures tick % 2 == 0 && 10 < s.r.battery <= 20 && s.r.cpu < 95 && s.overwrite.None? ==> bus.safe == old(bus.safe)
      ensures bus.safe == ModeIn(old(bus.safe), s) ==> inbox == old(inbox)
      ensures bus.safe != ModeIn(old(bus.safe), s) ==> OnlyLiveSignalled(old(inbox), inbox, pids, bus.safe)
    {
      bus.battery, bus.cpu, bus.solar := s.r.battery, s.r.cpu, s.r.solar;
      if s.overwrite.Some? {
        bus.safe := s.overwrite.value;
      }
      tick := tick + 1;
      if tick % 2 == 0 {
        RunWatchdog();
      }
    }

    // main()'s loop, second by second.
    method MainLoop(seconds: seq<Second>)
      requires Valid()
      modifies bus, `inbox, `tick, `broadcasts
      ensures tick == old(tick) + |seconds|
      ensures bus.safe == ModeAt(old(bus.safe), old(tick), seconds)
      ensures broadcasts == old(broadcasts) + BroadcastsOf(old(bus.safe), old(tick), seconds)
    {
      ghost var safe, sent, start := bus.safe, broadcasts, tick;
      var i := 0;
      while i < |seconds|
        invariant 0 <= i <= |seconds| && tick == start + i
        invariant Tracks(safe, sent, start, seconds[..i], bus.safe, broadcasts)
      {
        SecondTracked(safe, sent, start, seconds, i, bus.safe, broadcasts);
        OneSecond(seconds[i]);
        i := i + 1;
      }
      assert seconds[..i] == seconds;
    }
  }

  // A computer that began in mode `safe`, having broadcast `sent`, has since lived through `seconds`.
  predicate Tracks(safe: bool, sent: seq<bool>, tick: nat, seconds: seq<Second>, mode: bool, broadcasts: seq<bool>) {
    mode == ModeAt(safe, tick, seconds) && broadcasts == sent + BroadcastsOf(safe, tick, seconds)
  }

  lemma SecondTracked(safe: bool, sent: seq<bool>, tick: nat, seconds: seq<Second>, i: nat, mode: bool,
                      broadcasts: seq<bool>)
    requires i < |seconds| && Tracks(safe, sent, tick, seconds[..i], mode, broadcasts)
    ensures Tracks(safe, sent, tick, seconds[..i + 1], ModeOver(mode, tick + i + 1, seconds[i]),
                   broadcasts + BroadcastIn(mode, tick + i + 1, seconds[i]))
  {
    assert seconds[..i + 1][..i] == seconds[..i];
  }
}
