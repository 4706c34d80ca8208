/**
 A broadcast can be lost: a run in which NORMAL is broadcast before the children have handled SAFE, and
 every child handles the two signals in the other order.
 */
module LostBroadcast {
  import opened Alerts
  import opened ThermalPlant
  import opened MessageQueue
  import opened Spacecraft
  import opened SafeMode
  import opened Witnesses

  // After the alarm, with the sensor's alert in the queue.
  function AlertSent(): Sys {
    Alarmed().(queue := [OVERHEAT])
  }

  lemma SensorSends()
    ensures Reachable(Sensing(AlertSent(), HOT, THERMAL_SPIKE, SenAsleep), false)
  {
    Alarm(false);
    Go(Alarmed(), Step(Sensor, 0), false);
    assert Insert([], OVERHEAT) == [OVERHEAT];
    assert Next(Alarmed(), Step(Sensor, 0)) == Sensing(AlertSent(), HOT, THERMAL_SPIKE, SenAsleep);
  }

  // The CPU cools by five degrees a pass, and the latch keeps the sensor quiet.
  lemma {:induction false} Cools(passes: nat)
    requires passes <= 5
    ensures Reachable(Sensing(AlertSent(), HOT.(cpu := 110 - 5 * passes), THERMAL_SPIKE + passes, SenAsleep), false)
  {
    if passes == 0 {
      SensorSends();
    } else {
      Cools(passes - 1);
      SensorReads(AlertSent(), HOT.(cpu := 115 - 5 * passes), THERMAL_SPIKE + passes - 1, false);
      SensorRests(AlertSent(), HOT.(cpu := 110 - 5 * passes), THERMAL_SPIKE + passes, false);
    }
  }

  function Cooled(): Sys {
    Sensing(AlertSent(), HOT.(cpu := 80, faultActive := false), THERMAL_SPIKE + 6, SenSend(CpuAlert(INFO, 80)))
  }

  lemma CoolsDown()
    ensures Reachable(Cooled(), false)
  {
    Cools(5);
    SensorReads(AlertSent(), HOT.(cpu := 85), THERMAL_SPIKE + 5, false);
    SensorReports(AlertSent(), HOT.(cpu := 80), THERMAL_SPIKE + 6, INFO, false);
  }

  // The bus shows it, and the watchdog has broadcast and written NORMAL.
  function Recovered(): Sys {
    Called(Cooled().(bus := Copied(Cooled())), false)
  }

  lemma Recovery()
    ensures Reachable(Recovered(), false)
  {
    CoolsDown();
    BusCopies(Cooled(), false);
    WatchdogRuns(Cooled().(bus := Copied(Cooled())), false, false);
  }

  // The first n children have handled both signals, NORMAL first.
  function Handling(n: nat): Inboxes {
    var both, safe := Inbox(false, true, true), Inbox(true, false, false);
    [if n > 0 then safe else both, if n > 1 then safe else both, if n > 2 then safe else both,
        if n > 3 then safe else both]
  }

  lemma HandlesBoth(s: Sys, c: nat)
    requires Reachable(s, false) && c < 4 && s.inbox[c] == Inbox(false, true, true)
    ensures Reachable(s.(inbox := s.inbox[c := Inbox(true, false, false)]), false)
  {
    Go(s, Deliver(c, false), false);
    var once := s.(inbox := s.inbox[c := Inbox(false, true, false)]);
    Go(once, Deliver(c, true), false);
    assert once.inbox[c := Inbox(true, false, false)] == s.inbox[c := Inbox(true, false, false)];
  }

  lemma {:induction false} SignalsAreHandled(n: nat)
    requires n <= 4
    ensures Reachable(Recovered().(inbox := Handling(n)), false)
  {
    if n == 0 {
      Recovery();
      assert Recovered().inbox == Handling(0);
    } else {
      SignalsAreHandled(n - 1);
      HandlesBoth(Recovered().(inbox := Handling(n - 1)), n - 1);
      assert Handling(n) == Handling(n - 1)[n - 1 := Inbox(true, false, false)];
    }
  }

  // NORMAL broadcast and written, no signal pending, and all four children in SAFE mode.
  predicate IsLost(s: Sys) {
    && s.obc.pc == WAsleep && !s.obc.last && !s.bus.safe
    && forall c | 0 <= c < 4 :: NothingPending(s.inbox[c]) && s.inbox[c].safe
  }

  lemma AllHandledIsLost()
    ensures IsLost(Recovered().(inbox := Handling(4)))
  {
    assert Handling(4) == seq(4, c => Inbox(true, false, false));
  }

  // A run that ends like that.
  lemma BroadcastMayBeLost() returns (states: seq<Sys>, acts: seq<Action>)
    ensures Execution(states, acts) && IsLost(states[|acts|])
  {
    SignalsAreHandled(4);
    AllHandledIsLost();
    states, acts :| EndsIn(states, acts, Recovered().(inbox := Handling(4)), false);
  }
}
