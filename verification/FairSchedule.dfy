/** A fair run exists: a schedule that lets everything come to rest and then wakes the next thread. */
module FairSchedule {
  import opened Spacecraft
  import opened Locks
  import opened Progress
  import opened SafeMode
  import opened Fairness

  datatype Scene = Scene(s: Sys, turn: nat)

  function TurnOf(t: Tid): nat {
    match t
    case Solar => 0 case Battery => 1 case PowerBus => 2 case Sensor => 3 case Heater => 4 case ThermalBus => 5
    case Uplink => 6 case Downlink => 7 case Watchdog => 8 case Logger => 9
  }

  function ThreadOf(turn: nat): Tid {
    match turn % 10
    case 0 => Solar case 1 => Battery case 2 => PowerBus case 3 => Sensor case 4 => Heater case 5 => ThermalBus
    case 6 => Uplink case 7 => Downlink case 8 => Watchdog case _ => Logger
  }

  lemma EveryThreadHasATurn(round: nat, t: Tid)
    ensures ThreadOf(10 * round + TurnOf(t)) == t
  {
    assert (10 * round + TurnOf(t)) % 10 == TurnOf(t);
  }

  predicate Quiet(s: Sys) {
    forall c | 0 <= c < 4 :: NothingPending(s.inbox[c])
  }

  ghost predicate Suits(s: Sys, a: Action) {
    InBody(s, a) && Enabled(s, a) && (a.Step? ==> Quiet(s))
  }

  lemma SomethingSuits(s: Sys)
    requires LockInv(s) && !Idle(s)
    ensures exists a :: Suits(s, a)
  {
    var a := SomeoneMoves(s);
    assert Suits(s, a);
  }

  ghost function Chosen(c: Scene): (a: Action)
    requires LockInv(c.s)
    ensures Enabled(c.s, a) && (a.Step? ==> Quiet(c.s))
    ensures if Idle(c.s) then a == Step(ThreadOf(c.turn), 0) else InBody(c.s, a)
  {
    if Idle(c.s) then
      assert Resting(c.s, ThreadOf(c.turn));
      RestingThreadWakes(c.s, ThreadOf(c.turn));
      Step(ThreadOf(c.turn), 0)
    else
      SomethingSuits(c.s);
      var a :| Suits(c.s, a);
      a
  }

  ghost function After(c: Scene): (d: Scene)
    requires LockInv(c.s)
    ensures LockInv(d.s)
    ensures if Idle(c.s) then d.turn == c.turn + 1 else d.turn == c.turn && Distance(d.s) < Distance(c.s)
  {
    var a := Chosen(c);
    LockInvStep(c.s, a);
    if Idle(c.s) then Scene(Next(c.s, a), c.turn + 1)
    else
      BodyStepsComeCloser(c.s, a);
      Scene(Next(c.s, a), c.turn)
  }

  lemma AfterTakes(c: Scene)
    requires LockInv(c.s)
    ensures Takes(c.s, Chosen(c), After(c).s)
  {
  }

  ghost predicate Schedule(scene: nat -> Scene) {
    && (forall n: nat :: LockInv(scene(n).s))
    && (forall n: nat :: scene(n + 1) == After(scene(n)))
  }

  ghost function SceneAt(start: Scene, n: nat): (c: Scene)
    requires LockInv(start.s)
    ensures LockInv(c.s)
  {
    if n == 0 then start else After(SceneAt(start, n - 1))
  }

  lemma ScheduleFrom(start: Scene) returns (scene: nat -> Scene)
    requires LockInv(start.s)
    ensures Schedule(scene) && scene(0) == start
  {
    scene := (n: nat) => SceneAt(start, n);
  }

  // Everything comes to rest before the next turn.
  lemma {:induction false} ComesToRest(scene: nat -> Scene, n: nat) returns (m: nat)
    requires Schedule(scene)
    ensures n <= m && Idle(scene(m).s) && scene(m).turn == scene(n).turn
    decreases Distance(scene(n).s)
  {
    m := n;
    if !Idle(scene(n).s) {
      assert scene(n + 1) == After(scene(n));
      m := ComesToRest(scene, n + 1);
    }
  }

  lemma {:induction false} TurnComes(scene: nat -> Scene, n: nat, turn: nat) returns (m: nat)
    requires Schedule(scene) && scene(n).turn <= turn
    ensures n <= m && Idle(scene(m).s) && scene(m).turn == turn
    decreases turn - scene(n).turn
  {
    m := ComesToRest(scene, n);
    if scene(m).turn < turn {
      assert scene(m + 1) == After(scene(m));
      m := TurnComes(scene, m + 1, turn);
    }
  }

  lemma ThreadComes(scene: nat -> Scene, act: nat -> Action, n: nat, t: Tid)
    requires Schedule(scene) && forall k: nat :: act(k) == Chosen(scene(k))
    ensures StepsAfter(act, n, t)
  {
    var turn := 10 * scene(n).turn + TurnOf(t);
    var m := TurnComes(scene, n, turn);
    EveryThreadHasATurn(scene(n).turn, t);
    assert Chosen(scene(m)) == Step(t, 0);
    assert StepOf(act(m), t);
  }

  ghost predicate IsRunOf(scene: nat -> Scene, st: nat -> Sys, act: nat -> Action)
    requires Schedule(scene)
  {
    forall k: nat :: st(k) == scene(k).s && act(k) == Chosen(scene(k))
  }

  lemma SignalIsHandled(scene: nat -> Scene, st: nat -> Sys, act: nat -> Action, n: nat, c: nat, safe: bool)
    requires Schedule(scene) && IsRunOf(scene, st, act) && Forever(st, act)
    requires c < 4 && EnabledAfter(st, n, Deliver(c, safe))
    ensures DeliversAfter(act, n, c, safe)
  {
    var k: nat :| n <= k && Enabled(st(k), Deliver(c, safe));
    var m := ComesToRest(scene, k);
    HandledMeanwhile(st, act, n, k, m, c, safe);
  }

  lemma RunsForever(scene: nat -> Scene, st: nat -> Sys, act: nat -> Action)
    requires Schedule(scene) && scene(0).s == Init() && IsRunOf(scene, st, act)
    ensures Forever(st, act)
  {
    forall n: nat ensures Takes(st(n), act(n), st(n + 1)) {
      AfterTakes(scene(n));
    }
  }

  lemma RunsTimely(scene: nat -> Scene, st: nat -> Sys, act: nat -> Action)
    requires Schedule(scene) && IsRunOf(scene, st, act)
    ensures TimelyForever(st, act)
  {
    forall n: nat, c | 0 <= c < 4 && StartsBroadcast(st(n), act(n)) ensures NothingPending(st(n).inbox[c]) {
      assert act(n).Step? && Quiet(scene(n).s);
    }
  }

  lemma RunsFairly(scene: nat -> Scene, st: nat -> Sys, act: nat -> Action)
    requires Schedule(scene) && IsRunOf(scene, st, act) && Forever(st, act)
    ensures FairSteps(st, act) && FairSignals(st, act)
  {
    forall n: nat, t ensures StepsAfter(act, n, t) {
      ThreadComes(scene, act, n, t);
    }
    forall n: nat, c: nat, safe | c < 4 && EnabledAfter(st, n, Deliver(c, safe))
      ensures DeliversAfter(act, n, c, safe)
    {
      SignalIsHandled(scene, st, act, n, c, safe);
    }
  }

  lemma RunIsFair(scene: nat -> Scene, st: nat -> Sys, act: nat -> Action)
    requires Schedule(scene) && scene(0).s == Init() && IsRunOf(scene, st, act)
    ensures FairRun(st, act)
  {
    RunsForever(scene, st, act);
    RunsTimely(scene, st, act);
    RunsFairly(scene, st, act);
  }

  // So fair runs exist.
  lemma FairRunExists() returns (st: nat -> Sys, act: nat -> Action)
    ensures FairRun(st, act)
  {
    LocksHold([Init()], [], 0);
    var scene := ScheduleFrom(Scene(Init(), 0));
    st := (n: nat) => scene(n).s;
    act := (n: nat) requires LockInv(scene(n).s) => Chosen(scene(n));
    RunIsFair(scene, st, act);
  }
}
