/** The bounded priority queue behind ipc/msgq_manager.c. */
module MessageQueue {
  import opened Alerts

  // The place of a new message: behind every message of at least its own priority.
  function Place(q: seq<Alert>, a: Alert): (k: nat)
    ensures k <= |q|
    ensures forall i | 0 <= i < k :: Priority(q[i]) >= Priority(a)
    ensures k < |q| ==> Priority(q[k]) < Priority(a)
  {
    if q == [] || Priority(q[0]) < Priority(a) then 0 else 1 + Place(q[1..], a)
  }

  // A queue is kept in delivery order: mq_receive takes its head.
  function Insert(q: seq<Alert>, a: Alert): seq<Alert> {
    q[..Place(q, a)] + [a] + q[Place(q, a)..]
  }

  ghost predicate Ordered(q: seq<Alert>) {
    forall i, j | 0 <= i < j < |q| :: Priority(q[i]) >= Priority(q[j])
  }

  // The same by severity: no WARNING or INFO stands before a CRITICAL message, and no INFO before a WARNING.
  ghost predicate OrderedBySeverity(q: seq<Alert>) {
    && (forall i, j | 0 <= i < j < |q| && q[j].severity == CRITICAL :: q[i].severity == CRITICAL)
    && (forall i, j | 0 <= i < j < |q| && q[j].severity == WARNING :: q[i].severity != INFO)
  }

  lemma OrderIsBySeverity(q: seq<Alert>)
    ensures Ordered(q) <==> OrderedBySeverity(q)
  {
    if OrderedBySeverity(q) {
      forall i, j | 0 <= i < j < |q| ensures Priority(q[i]) >= Priority(q[j]) {
        assert q[j].severity == CRITICAL ==> q[i].severity == CRITICAL;
        assert q[j].severity == WARNING ==> q[i].severity != INFO;
      }
    } else {
      assert !Ordered(q) by {
        if i, j :| 0 <= i < j < |q| && q[j].severity == CRITICAL && q[i].severity != CRITICAL {
          assert Priority(q[i]) < Priority(q[j]);
        } else {
          var i, j :| 0 <= i < j < |q| && q[j].severity == WARNING && q[i].severity == INFO;
          assert Priority(q[i]) < Priority(q[j]);
        }
      }
    }
  }

  lemma InsertKeepsOrder(q: seq<Alert>, a: Alert)
    requires Ordered(q)
    ensures Ordered(Insert(q, a))
  {
  }

  lemma InsertAddsOne(q: seq<Alert>, a: Alert)
    ensures multiset(Insert(q, a)) == multiset(q) + multiset{a}
  {
    assert q == q[..Place(q, a)] + q[Place(q, a)..];
  }

  // In an ordered queue a message never moves past one of its own or a higher priority.
  lemma InsertKeepsSeverity(q: seq<Alert>, a: Alert, v: Severity)
    requires Ordered(q)
    ensures OfSeverity(Insert(q, a), v) == OfSeverity(q, v) + OfSeverity([a], v)
  {
    var k := Place(q, a);
    if a.severity == v {
      LowerHasNone(q[k..], a);
    }
    var front, back := q[..k], q[k..];
    SeverityOfInserted(front, a, back, v);
    assert q == front + back && Insert(q, a) == front + [a] + back;
  }

  lemma {:induction false} SeverityOfInserted(front: seq<Alert>, a: Alert, back: seq<Alert>, v: Severity)
    requires a.severity == v ==> OfSeverity(back, v) == []
    ensures OfSeverity(front + [a] + back, v) == OfSeverity(front + back, v) + OfSeverity([a], v)
  {
    if front == [] {
      assert front + [a] + back == [a] + back && front + back == back;
      assert ([a] + back)[1..] == back;
    } else {
      SeverityOfInserted(front[1..], a, back, v);
      assert (front + [a] + back)[1..] == front[1..] + [a] + back;
      assert (front + back)[1..] == front[1..] + back;
    }
  }

  lemma {:induction false} LowerHasNone(q: seq<Alert>, a: Alert)
    requires Ordered(q) && (q != [] ==> Priority(q[0]) < Priority(a))
    ensures OfSeverity(q, a.severity) == []
  {
    if q == [] {
    } else {
      assert q[1..] != [] ==> Priority(q[1]) <= Priority(q[0]);
      LowerHasNone(q[1..], a);
    }
  }

  // ----- the queue of IEEE Std 1003.1-2017, kept in order of arrival -----

  // The message that mq_receive() takes: the oldest of those with the highest priority.
  function Pick(arrivals: seq<Alert>): (k: nat)
    requires arrivals != []
    ensures k < |arrivals|
    ensures forall i | 0 <= i < |arrivals| :: Priority(arrivals[i]) <= Priority(arrivals[k])
    ensures forall i | 0 <= i < k :: Priority(arrivals[i]) < Priority(arrivals[k])
  {
    var n := |arrivals| - 1;
    if n == 0 then 0
    else
      var k := Pick(arrivals[..n]);
      if Priority(arrivals[n]) > Priority(arrivals[k]) then n else k
  }

  function DeliveryOrder(arrivals: seq<Alert>): (q: seq<Alert>)
    ensures |q| == |arrivals|
  {
    if arrivals == [] then []
    else Insert(DeliveryOrder(arrivals[..|arrivals| - 1]), arrivals[|arrivals| - 1])
  }

  function Without(s: seq<Alert>, k: nat): seq<Alert>
    requires k < |s|
  {
    s[..k] + s[k + 1..]
  }

  predicate DeliversAsPosix(arrivals: seq<Alert>)
    requires arrivals != []
  {
    && DeliveryOrder(arrivals)[0] == arrivals[Pick(arrivals)]
    && DeliveryOrder(arrivals)[1..] == DeliveryOrder(Without(arrivals, Pick(arrivals)))
  }

  lemma OneArrival(a: Alert)
    ensures DeliversAsPosix([a])
  {
    assert [a][..0] == [] && Insert([], a) == [a];
    assert DeliveryOrder([a]) == [a];
  }

  // Receiving from the ordered queue is receiving the oldest message of the highest priority.
  lemma {:induction false} DeliveryOrderIsPosix(arrivals: seq<Alert>)
    requires arrivals != []
    ensures DeliversAsPosix(arrivals)
  {
    var older, a := arrivals[..|arrivals| - 1], arrivals[|arrivals| - 1];
    if older == [] {
      OneArrival(a);
      assert arrivals == [a];
    } else {
      DeliveryOrderIsPosix(older);
      PosixAfterOneMore(older, a);
      assert arrivals == older + [a];
    }
  }

  lemma PosixAfterOneMore(older: seq<Alert>, a: Alert)
    requires older != [] && DeliversAsPosix(older)
    ensures DeliversAsPosix(older + [a])
  {
    PickGrows(older, a);
    DeliveryOrderGrows(older, a);
    if Priority(a) > Priority(older[Pick(older)]) {
      InsertInFront(DeliveryOrder(older), a);
      assert Without(older + [a], |older|) == older;
    } else {
      InsertBehindHead(DeliveryOrder(older), a);
      WithoutGrows(older, a, Pick(older));
      DeliveryOrderGrows(Without(older, Pick(older)), a);
    }
  }

  lemma WithoutGrows(s: seq<Alert>, a: Alert, k: nat)
    requires k < |s|
    ensures Without(s + [a], k) == Without(s, k) + [a]
  {
  }

  lemma InsertInFront(q: seq<Alert>, a: Alert)
    requires q != [] && Priority(q[0]) < Priority(a)
    ensures Insert(q, a) == [a] + q
  {
  }

  lemma PickGrows(older: seq<Alert>, a: Alert)
    requires older != []
    ensures Pick(older + [a]) == if Priority(a) > Priority(older[Pick(older)]) then |older| else Pick(older)
  {
    assert (older + [a])[..|older|] == older;
  }

  lemma DeliveryOrderGrows(arrivals: seq<Alert>, a: Alert)
    ensures DeliveryOrder(arrivals + [a]) == Insert(DeliveryOrder(arrivals), a)
  {
    assert (arrivals + [a])[..|arrivals|] == arrivals;
  }

  lemma InsertBehindHead(q: seq<Alert>, a: Alert)
    requires q != [] && Priority(q[0]) >= Priority(a)
    ensures Insert(q, a)[0] == q[0] && Insert(q, a)[1..] == Insert(q[1..], a)
  {
  }

  // msgq_send() and msgq_receive(). A send into a full queue and a receive from an empty one would
  // block; here they report that instead.
  class MsgQueue {
    var held: seq<Alert>

    ghost predicate Valid()
      reads this
    {
      |held| <= MQ_MAX_MESSAGES && Ordered(held)
    }

    constructor Create()
      ensures Valid() && held == []
    {
      held := [];
    }

    method Send(a: Alert) returns (accepted: bool)
      requires Valid()
      modifies this
      ensures Valid()
      ensures accepted <==> |old(held)| < MQ_MAX_MESSAGES
      ensures held == if accepted then Insert(old(held), a) else old(held)
      ensures accepted <==> |old(held)| < 10
      ensures OrderedBySeverity(held)
    {
      accepted := |held| < MQ_MAX_MESSAGES;
      if accepted {
        InsertKeepsOrder(held, a);
        held := Insert(held, a);
      }
      OrderIsBySeverity(held);
    }

    method Receive() returns (r: Option<Alert>)
      requires Valid()
      modifies this
      ensures Valid()
      ensures r.None? <==> old(held) == []
      ensures r.Some? ==> old(held) == [r.value] + held && forall a <- held :: Priority(a) <= Priority(r.value)
      ensures r.None? ==> held == []
      ensures r.Some? && r.value.severity == INFO ==> forall a <- held :: a.severity == INFO
      ensures r.Some? && r.value.severity == WARNING ==> forall a <- held :: a.severity != CRITICAL
    {
      if held == [] {
        r := None;
      } else {
        r := Some(held[0]);
        held := held[1..];
      }
    }
  }
}
