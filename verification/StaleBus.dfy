/**
 The mode on the bus can be wrong after the watchdog has written it: a run in which the power bus writer
 loads its mode, its process handles the broadcast, and the bus writer stores what it has loaded.
 */
module StaleBus {
  import opened Alerts
  import opened Spacecraft
  import opened SafeMode
  import opened Witnesses

  // The bus writer at pc, after the alarm; `heard` says whether its process has handled the signal.
  function Overwriting(pc: PowerBusPc, holds: bool, safe: bool, heard: bool): Sys {
    var s := Alarmed();
    s.(power := Init().power.(bus := pc, mutex := if holds then Some(PowerBus) else None),
       sem := if pc.PbAsleep? || pc.PbSem? then None else Some(PowerBus), bus := s.bus.(safe := safe),
       inbox := if heard then s.inbox[POWER_CHILD := Inbox(true, false, false)] else s.inbox)
  }

  lemma WriterLocks()
    ensures Reachable(Overwriting(PbSolar, true, true, false), true)
  {
    Alarm(true);
    assert Overwriting(PbAsleep, false, true, false) == Alarmed();
    Go(Overwriting(PbAsleep, false, true, false), Step(PowerBus, 0), true);
    Go(Overwriting(PbSem, false, true, false), Step(PowerBus, 0), true);
    Go(Overwriting(PbLock, false, true, false), Step(PowerBus, 0), true);
  }

  lemma WriterLoads()
    ensures Reachable(Overwriting(PbMode(false), true, true, false), true)
  {
    WriterLocks();
    Go(Overwriting(PbSolar, true, true, false), Step(PowerBus, 0), true);
    Go(Overwriting(PbBattery, true, true, false), Step(PowerBus, 0), true);
    Go(Overwriting(PbLoad, true, true, false), Step(PowerBus, 0), true);
  }

  lemma SignalArrives()
    ensures Reachable(Overwriting(PbMode(false), true, true, true), true)
  {
    WriterLoads();
    Go(Overwriting(PbMode(false), true, true, false), Deliver(POWER_CHILD, true), true);
  }

  lemma WriterReleases()
    ensures Reachable(Overwriting(PbAsleep, false, false, true), true)
  {
    SignalArrives();
    Go(Overwriting(PbMode(false), true, true, true), Step(PowerBus, 0), true);
    Go(Overwriting(PbUnlock, true, false, true), Step(PowerBus, 0), true);
    Go(Overwriting(PbPost, false, false, true), Step(PowerBus, 0), true);
  }

  // A timely run that ends with the watchdog and the bus writer asleep, SAFE broadcast, written and
  // handled by the power process, and NORMAL on the bus: the load came before the handler.
  lemma BusMayDisagree() returns (states: seq<Sys>, acts: seq<Action>)
    ensures Execution(states, acts) && Timely(states, acts)
    ensures var s := states[|acts|];
            s.obc.pc == WAsleep && s.power.bus == PbAsleep && s.obc.last && PowerHeard(s) && !s.bus.safe
  {
    WriterReleases();
    states, acts :| EndsIn(states, acts, Overwriting(PbAsleep, false, false, true), true);
  }
}
