/** Shutdown: handle_sigchld() and the four calls of wait() in wait_children() share the reaping. */
module Reaping {

  // The process table as the OBC sees it. `reaped` lists the children in the order in which they were
  // reaped, by the handler or by wait(); `waits` counts the calls of wait() that have returned.
  datatype Table = Table(running: set<int>, zombies: set<int>, reaped: seq<int>, waits: nat, inHandler: bool)

  datatype Event =
    | Exits(pid: int)          // a child terminates
    | Interrupts               // SIGCHLD arrives and handle_sigchld() starts
    | HandlerReaps(pid: int)   // waitpid(-1, WNOHANG) returns a child
    | HandlerReturns           // waitpid(-1, WNOHANG) finds no terminated child
    | WaitReaps(pid: int)      // wait(NULL) returns a child
    | WaitFails                // wait(NULL) fails for want of children

  predicate Possible(t: Table, e: Event) {
    match e
    case Exits(p) => p in t.running
    case Interrupts => !t.inHandler
    case HandlerReaps(p) => t.inHandler && p in t.zombies
    case HandlerReturns => t.inHandler && t.zombies == {}
    case WaitReaps(p) => !t.inHandler && t.waits < 4 && p in t.zombies
    case WaitFails => !t.inHandler && t.waits < 4 && t.zombies == {} && t.running == {}
  }

  function After(t: Table, e: Event): Table {
    match e
    case Exits(p) => t.(running := t.running - {p}, zombies := t.zombies + {p})
    case Interrupts => t.(inHandler := true)
    case HandlerReaps(p) => t.(zombies := t.zombies - {p}, reaped := t.reaped + [p])
    case HandlerReturns => t.(inHandler := false)
    case WaitReaps(p) => t.(zombies := t.zombies - {p}, reaped := t.reaped + [p], waits := t.waits + 1)
    case WaitFails => t.(waits := t.waits + 1)
  }

  // Events from the moment the four children have been forked.
  ghost predicate History(children: set<int>, tables: seq<Table>, events: seq<Event>) {
    && |children| == 4 && |tables| == |events| + 1
    && tables[0] == Table(children, {}, [], 0, false)
    && forall k | 0 <= k < |events| :: Possible(tables[k], events[k]) && tables[k + 1] == After(tables[k], events[k])
  }

  ghost predicate NoRepeats(s: seq<int>) {
    forall i, j | 0 <= i < j < |s| :: s[i] != s[j]
  }

  // Every child is in one place, and each wait() that returned reaped a child or found none left.
  ghost predicate TableInv(children: set<int>, t: Table) {
    && NoRepeats(t.reaped) && t.running !! t.zombies
    && (forall p :: p in children <==> p in t.running || p in t.zombies || p in t.reaped)
    && (forall p <- t.reaped :: p !in t.running && p !in t.zombies)
    && (t.waits <= |t.reaped| || (t.running == {} && t.zombies == {}))
  }

  lemma TableInvStep(children: set<int>, t: Table, e: Event)
    requires TableInv(children, t) && Possible(t, e)
    ensures TableInv(children, After(t, e))
  {
  }

  lemma {:induction false} AsManyAsReaped(s: seq<int>)
    requires NoRepeats(s)
    ensures |set p | p in s| == |s|
  {
    if s == [] {
    } else {
      var n := |s| - 1;
      AsManyAsReaped(s[..n]);
      assert (set p | p in s) == (set p | p in s[..n]) + {s[n]};
    }
  }

  // In every interleaving of the handler with the waits: once wait_children() returns, each of the
  // four children has been reaped exactly once, and none is left.
  lemma NoChildUnreaped(children: set<int>, tables: seq<Table>, events: seq<Event>, n: nat)
    requires History(children, tables, events) && n <= |events| && tables[n].waits == 4
    ensures tables[n].running == tables[n].zombies == {}
    ensures multiset(tables[n].reaped) == multiset(children)
  {
    for k := 0 to n
      invariant TableInv(children, tables[k])
    {
      TableInvStep(children, tables[k], events[k]);
    }
    var t := tables[n];
    AsManyAsReaped(t.reaped);
    var reaped := set p | p in t.reaped;
    assert forall p :: p in reaped ==> p in children;
    if |t.reaped| >= 4 {
      SubsetOfSameSize(reaped, children);
      assert forall p :: p in t.running || p in t.zombies ==> p in reaped;
    } else {
      assert forall p :: p in children ==> p in reaped;
    }
    assert reaped == children;
    MultisetOfDistinct(t.reaped);
  }

  lemma SubsetOfSameSize(a: set<int>, b: set<int>)
    requires a <= b && |a| >= |b|
    ensures a == b
  {
    assert b == a + (b - a);
    assert |b - a| == 0;
  }

  lemma {:induction false} MultisetOfDistinct(s: seq<int>)
    requires NoRepeats(s)
    ensures multiset(s) == multiset(set p | p in s)
  {
    if s == [] {
    } else {
      var n := |s| - 1;
      MultisetOfDistinct(s[..n]);
      assert s == s[..n] + [s[n]];
      assert (set p | p in s) == (set p | p in s[..n]) + {s[n]};
    }
  }

  // The parent's side of signals/signal_handler.c: the pid variables, and the children that have
  // terminated and not been reaped.
  class Parent {
    var power: int
    var thermal: int
    var comms: int
    var logger: int
    var zombies: seq<int>
    var reaped: seq<int>

    constructor (power: int, thermal: int, comms: int, logger: int, zombies: seq<int>)
      ensures this.power == power && this.thermal == thermal && this.comms == comms && this.logger == logger
      ensures this.zombies == zombies && reaped == []
    {
      this.power, this.thermal, this.comms, this.logger := power, thermal, comms, logger;
      this.zombies, reaped := zombies, [];
    }

    // Process ids are positive, no two children share one, and -1 stands for a child already reaped.
    ghost predicate Valid()
      reads this
    {
      && (power == -1 || (power != thermal && power != comms && power != logger))
      && (thermal == -1 || (thermal != comms && thermal != logger))
      && (comms == -1 || comms != logger)
      && forall i | 0 <= i < |zombies| :: zombies[i] > 0
    }

    static function Forgotten(pid: int, gone: seq<int>): int {
      if pid in gone then -1 else pid
    }

    // The chain of tests that forgets the pid of a child just reaped.
    method Forget(pid: int)
      requires Valid() && pid > 0
      modifies `power, `thermal, `comms, `logger
      ensures Valid()
      ensures power == Forgotten(old(power), [pid]) && thermal == Forgotten(old(thermal), [pid])
      ensures comms == Forgotten(old(comms), [pid]) && logger == Forgotten(old(logger), [pid])
    {
      if pid == power {
        power := -1;
      } else if pid == thermal {
        thermal := -1;
      } else if pid == comms {
        comms := -1;
      } else if pid == logger {
        logger := -1;
      }
    }

    // handle_sigchld(): reaps every terminated child, each once, and forgets its pid and no other.
    // `zombies` lists the terminated children in whatever order waitpid(-1, WNOHANG) returns them.
    method HandleSigchld()
      requires Valid()
      modifies this
      ensures Valid() && zombies == []
      ensures reaped == old(reaped) + old(zombies)
      ensures power == Forgotten(old(power), old(zombies)) && thermal == Forgotten(old(thermal), old(zombies))
      ensures comms == Forgotten(old(comms), old(zombies)) && logger == Forgotten(old(logger), old(zombies))
      ensures forall p <- old(zombies) :: p != power && p != thermal && p != comms && p != logger
      ensures old(power) !in old(zombies) ==> power == old(power)
      ensures old(thermal) !in old(zombies) ==> thermal == old(thermal)
      ensures old(comms) !in old(zombies) ==> comms == old(comms)
      ensures old(logger) !in old(zombies) ==> logger == old(logger)
    {
      ghost var gone: seq<int> := [];
      while zombies != []
        invariant Valid() && gone + zombies == old(zombies)
        invariant reaped == old(reaped) + gone
        invariant power == Forgotten(old(power), gone) && thermal == Forgotten(old(thermal), gone)
        invariant comms == Forgotten(old(comms), gone) && logger == Forgotten(old(logger), gone)
        decreases |zombies|
      {
        var pid := zombies[0];
        zombies := zombies[1..];
        reaped := reaped + [pid];
        Forget(pid);
        gone := gone + [pid];
      }
    }
  }
}
