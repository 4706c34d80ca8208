/**
 Every fair run ends in NORMAL mode: step by step, facts about the plant, the bus, the watchdog and the
 children come true and stay true.
 */
module Settling {
  import opened Alerts
  import opened Spacecraft
  import opened PlantRuns
  import opened SafeMode
  import opened Fairness

  // What holds in every state of such a run.
  ghost predicate Sound(s: Sys) {
    PowerInv(s.power) && ThermalInv(s.thermal) && ObcInv(s.obc) && forall c | 0 <= c < 4 :: ChildInv(s, c)
  }

  lemma SoundStep(s: Sys, a: Action, after: Sys)
    requires Takes(s, a, after) && Sound(s)
    requires StartsBroadcast(s, a) ==> forall c | 0 <= c < 4 :: NothingPending(s.inbox[c])
    ensures Sound(after)
  {
    if a.Step? {
      PowerInvNext(s.power, a.t, a.pick, s.inbox[POWER_CHILD].safe);
      ThermalInvNext(s.thermal, a.t, a.pick);
    }
    ObcInvStep(s, a, after);
    forall c | 0 <= c < 4 ensures ChildInv(after, c) {
      ChildInvStep(s, a, after, c);
    }
  }

  lemma AlwaysSound(st: nat -> Sys, act: nat -> Action, n: nat)
    requires FairRun(st, act)
    ensures Sound(st(n))
  {
    for k := 0 to n
      invariant Sound(st(k))
    {
      assert Takes(st(k), act(k), st(k + 1));
      SoundStep(st(k), act(k), st(k + 1));
    }
  }

  // ----- where each loop stands -----

  // A chosen step in the loop of some thread.
  datatype Goal =
    | SetFlag | DrawLevel | CopySolar | CopyBattery | LoadMode | StoreMode | DrawCpu | CopyCpu
    | BeginSnapshot | Decide

  function Owner(g: Goal): Tid {
    match g
    case SetFlag => Solar
    case DrawLevel => Battery
    case CopySolar => PowerBus
    case CopyBattery => PowerBus
    case LoadMode => PowerBus
    case StoreMode => PowerBus
    case DrawCpu => Sensor
    case CopyCpu => ThermalBus
    case BeginSnapshot => Watchdog
    case Decide => Watchdog
  }

  function ToFlag(pc: SolarPc): nat {
    match pc
    case SolarFlag => 0 case SolarWatts => 1 case SolarLock => 2 case SolarAsleep => 3 case SolarUnlock => 4
  }

  function ToLevel(pc: BatteryPc): nat {
    match pc
    case BatLevel => 0 case BatLock => 1 case BatAsleep => 2 case BatUnlock => 3 case BatSend(_) => 3
    case BatSendHeld(_) => 4 case BatUnlockSend(_) => 4 case BatJudge => 5
  }

  function FromSolarCopy(pc: PowerBusPc): nat {
    match pc
    case PbSolar => 0 case PbBattery => 1 case PbLoad => 2 case PbMode(_) => 3 case PbUnlock => 4 case PbPost => 5
    case PbAsleep => 6 case PbSem => 7 case PbLock => 8
  }

  function ToCpu(pc: SensorPc): nat {
    match pc
    case SenCpu => 0 case SenBody => 1 case SenAntenna => 2 case SenBattery => 3 case SenLock => 4 case SenAsleep => 5
    case SenUnlock => 6 case SenSend(_) => 6 case SenUnlockSend(_) => 7 case SenJudge => 8
  }

  function ToCpuCopy(pc: ThermalBusPc): nat {
    match pc
    case TbCpu => 0 case TbLock => 1 case TbSem => 2 case TbAsleep => 3 case TbPost => 4 case TbUnlock => 5
    case TbBody => 6 case TbAntenna => 7 case TbBattery => 8
  }

  // The watchdog passes through its sleep once or twice, for main() calls it on every second tick.
  function ToSnapshot(o: Obc): nat {
    match o.pc
    case WBattery => 0 case WSem => 1 case WAsleep => if (o.tick + 1) % 2 == 0 then 2 else 3
    case WPost2 => 4 case WWrite(_) => 5 case WSem2(_) => 6 case WKill(c, _) => if c < 4 then 11 - c else 7
    case WDecide => 12 case WPost => 13 case WSafe => 14 case WSolar => 15 case WTemp => 16
  }

  function ToDecision(o: Obc): nat {
    match o.pc
    case WDecide => 0 case WPost => 1 case WSafe => 2 case WSolar => 3 case WTemp => 4 case _ => 5 + ToSnapshot(o)
  }

  // The owner's own steps left until it takes the chosen one.
  function Distance(g: Goal, s: Sys): nat {
    match g
    case SetFlag => ToFlag(s.power.solar)
    case DrawLevel => ToLevel(s.power.battery)
    case CopySolar => (9 - FromSolarCopy(s.power.bus)) % 9
    case CopyBattery => (10 - FromSolarCopy(s.power.bus)) % 9
    case LoadMode => (11 - FromSolarCopy(s.power.bus)) % 9
    case StoreMode => (12 - FromSolarCopy(s.power.bus)) % 9
    case DrawCpu => ToCpu(s.thermal.sensor)
    case CopyCpu => ToCpuCopy(s.thermal.bus)
    case BeginSnapshot => ToSnapshot(s.obc)
    case Decide => ToDecision(s.obc)
  }

  lemma PowerApproaches(p: Power, pick: nat)
    ensures ToFlag(p.solar) > 0 ==> ToFlag(SolarNext(p, pick).solar) < ToFlag(p.solar)
    ensures ToLevel(p.battery) > 0 ==> ToLevel(BatteryNext(p, pick).battery) < ToLevel(p.battery)
  {
  }

  lemma ThermalApproaches(p: Thermal, pick: nat)
    ensures ToCpu(p.sensor) > 0 ==> ToCpu(SensorNext(p, pick).sensor) < ToCpu(p.sensor)
    ensures ToCpuCopy(p.bus) > 0 ==> ToCpuCopy(ThermalBusNext(p).bus) < ToCpuCopy(p.bus)
  {
  }

  lemma WatchdogApproaches(o: Obc, b: Bus)
    ensures ToSnapshot(o) > 0 ==> ToSnapshot(WatchdogNext(o, b)) < ToSnapshot(o)
    ensures ToDecision(o) > 0 ==> ToDecision(WatchdogNext(o, b)) < ToDecision(o)
  {
  }

  lemma OneStepOfNine(x: nat, target: nat)
    requires x < 9 && target <= 3 && (9 + target - x) % 9 > 0
    ensures (9 + target - (x + 1) % 9) % 9 < (9 + target - x) % 9
  {
  }

  lemma BusStepApproaches(g: Goal, s: Sys, after: Sys, safe: bool)
    requires after.power == PowerBusNext(s.power, safe) && Distance(g, s) > 0
    requires g.CopySolar? || g.CopyBattery? || g.LoadMode? || g.StoreMode?
    ensures Distance(g, after) < Distance(g, s)
  {
    var x := FromSolarCopy(s.power.bus);
    assert FromSolarCopy(PowerBusNext(s.power, safe).bus) == (x + 1) % 9;
    match g {
      case CopySolar => OneStepOfNine(x, 0);
      case CopyBattery => OneStepOfNine(x, 1);
      case LoadMode => OneStepOfNine(x, 2);
      case StoreMode => OneStepOfNine(x, 3);
    }
  }

  lemma OwnStepApproaches(g: Goal, s: Sys, after: Sys, pick: nat, safe: bool)
    requires after.power == PowerNext(s.power, Owner(g), pick, safe)
    requires after.thermal == ThermalNext(s.thermal, Owner(g), pick)
    requires after.obc == ObcNext(s.obc, Owner(g), s.bus) && Distance(g, s) > 0
    ensures Distance(g, after) < Distance(g, s)
  {
    if g.DrawCpu? || g.CopyCpu? {
      ThermalApproaches(s.thermal, pick);
    } else if g.BeginSnapshot? || g.Decide? {
      WatchdogApproaches(s.obc, s.bus);
    } else if g.SetFlag? || g.DrawLevel? {
      PowerApproaches(s.power, pick);
    } else {
      BusStepApproaches(g, s, after, safe);
    }
  }

  lemma OtherStepsKeepDistance(g: Goal, s: Sys, after: Sys)
    requires SamePc(s, after, Owner(g))
    ensures Distance(g, after) == Distance(g, s)
  {
  }

  // However far the run has come, every thread still comes to every chosen step of its loop.
  lemma {:induction false} Reaches(st: nat -> Sys, act: nat -> Action, g: Goal, n: nat) returns (m: nat)
    requires FairRun(st, act)
    ensures n <= m && StepOf(act(m), Owner(g)) && Distance(g, st(m)) == 0
    ensures Sound(st(m)) && Takes(st(m), act(m), st(m + 1))
    decreases Distance(g, st(n))
  {
    EveryThreadSteps(st, act, Owner(g), n);
    m := NextStep(st, act, Owner(g), n);
    OtherStepsKeepDistance(g, st(n), st(m));
    if Distance(g, st(m)) > 0 {
      OwnStepApproaches(g, st(m), st(m + 1), act(m).pick, st(m).inbox[POWER_CHILD].safe);
      m := Reaches(st, act, g, m + 1);
    }
    AlwaysSound(st, act, m);
  }

  // ----- facts that stay true once they are true -----

  datatype Fact =
    | Flag(clock: int)      // the solar thread has come this far
    | Level(pct: int)       // the eclipse is over and the battery is at least this full
    | Clock(clock: int)     // the sensor thread has come this far
    | SolarShown | BatteryShown | CpuShown  // the bus shows a healthy value
    | Calm                  // and so does any snapshot the watchdog may still decide on
    | Heard                 // the power process knows the mode if it is SAFE ...
    | Loaded                // ... and so does its bus writer ...
    | Shown                 // ... and the bus shows it ...
    | Read                  // ... and the watchdog has read it
    | Normal                // the mode broadcast last is NORMAL
    | Told(child: nat)      // a child is in NORMAL mode or has the signal pending
    | ChildNormal(child: nat)
    | LoadNormal            // the power bus writer has no SAFE left to store
    | BusNormal

  predicate CalmObc(o: Obc) {
    && (o.pc.WTemp? || o.pc.WSolar? || o.pc.WSafe? || o.pc.WPost? || o.pc.WDecide? ==> o.batt > BATTERY_WARNING)
    && (o.pc.WSolar? || o.pc.WSafe? || o.pc.WPost? || o.pc.WDecide? ==> o.temp < TEMP_WARNING)
    && (o.pc.WSafe? || o.pc.WPost? || o.pc.WDecide? ==> o.solar > 0)
    && (o.pc.WKill? || o.pc.WSem2? || o.pc.WWrite? ==> !o.last)
  }

  predicate IsCharged(s: Sys, pct: int) { FlagClock(s.power) > ECLIPSE_END && s.power.d.batteryPct >= pct }

  predicate IsCooled(s: Sys) { CpuClock(s.thermal) >= THERMAL_SPIKE + 8 }

  predicate IsCalm(s: Sys) {
    && IsCharged(s, 21) && s.bus.solar > 0 && s.bus.battery > BATTERY_WARNING
    && IsCooled(s) && s.bus.cpu < TEMP_WARNING
    && CalmObc(s.obc)
  }

  predicate PowerFollows(s: Sys) {
    s.obc.last ==> NothingPending(s.inbox[POWER_CHILD]) && s.inbox[POWER_CHILD].safe
  }

  predicate LoadFollows(s: Sys) { s.obc.last && s.power.bus.PbMode? ==> s.power.bus.mode }

  predicate BusFollows(s: Sys) { s.obc.last ==> s.bus.safe }

  predicate SnapshotFollows(s: Sys) { s.obc.last && (s.obc.pc.WPost? || s.obc.pc.WDecide?) ==> s.obc.safe }

  predicate StoresNormal(pc: PowerBusPc) { pc.PbMode? ==> !pc.mode }

  predicate HasBeenTold(i: Inbox) { !i.usr1 && (i.safe ==> i.usr2) }

  predicate IsTrue(f: Fact, s: Sys) {
    match f
    case Flag(k) => FlagClock(s.power) >= k
    case Level(k) => IsCharged(s, k)
    case Clock(k) => CpuClock(s.thermal) >= k
    case SolarShown => IsCharged(s, 21) && s.bus.solar > 0
    case BatteryShown => IsCharged(s, 21) && s.bus.battery > BATTERY_WARNING
    case CpuShown => IsCooled(s) && s.bus.cpu < TEMP_WARNING
    case Calm => IsCalm(s)
    case Heard => IsCalm(s) && PowerFollows(s)
    case Loaded => IsCalm(s) && PowerFollows(s) && LoadFollows(s)
    case Shown => IsCalm(s) && PowerFollows(s) && LoadFollows(s) && BusFollows(s)
    case Read => IsCalm(s) && PowerFollows(s) && LoadFollows(s) && BusFollows(s) && SnapshotFollows(s)
    case Normal => IsCalm(s) && !s.obc.last
    case Told(c) => IsCalm(s) && !s.obc.last && (c < 4 ==> HasBeenTold(s.inbox[c]))
    case ChildNormal(c) => IsCalm(s) && !s.obc.last && (c < 4 ==> !s.inbox[c].safe)
    case LoadNormal => IsCalm(s) && !s.obc.last && !s.inbox[POWER_CHILD].safe && StoresNormal(s.power.bus)
    case BusNormal => IsCalm(s) && !s.obc.last && !s.inbox[POWER_CHILD].safe && StoresNormal(s.power.bus) && !s.bus.safe
  }

  lemma PlantFactsStay(f: Fact, s: Sys, a: Action, after: Sys)
    requires Sound(s) && Takes(s, a, after) && IsTrue(f, s) && (f.Flag? || f.Level? || f.Clock?)
    ensures IsTrue(f, after)
  {
    if a.Step? {
      PowerInvNext(s.power, a.t, a.pick, s.inbox[POWER_CHILD].safe);
      ThermalInvNext(s.thermal, a.t, a.pick);
    }
  }

  lemma BusFactsStay(f: Fact, s: Sys, a: Action, after: Sys)
    requires Sound(s) && Takes(s, a, after) && IsTrue(f, s) && (f.SolarShown? || f.BatteryShown? || f.CpuShown?)
    ensures IsTrue(f, after)
  {
    if f.CpuShown? {
      PlantFactsStay(Clock(38), s, a, after);
    } else {
      PlantFactsStay(Level(21), s, a, after);
    }
  }

  // A calm watchdog never begins to broadcast SAFE.
  lemma CalmStays(s: Sys, a: Action, after: Sys)
    requires Sound(s) && Takes(s, a, after) && IsCalm(s)
    ensures IsCalm(after) && (after.obc.last ==> s.obc.last)
  {
    BusFactsStay(SolarShown, s, a, after);
    BusFactsStay(BatteryShown, s, a, after);
    BusFactsStay(CpuShown, s, a, after);
    CalmObcStays(s, a, after);
  }

  lemma CalmObcStays(s: Sys, a: Action, after: Sys)
    requires Takes(s, a, after) && CalmObc(s.obc)
    requires s.bus.solar > 0 && s.bus.battery > BATTERY_WARNING && s.bus.cpu < TEMP_WARNING
    ensures CalmObc(after.obc) && (after.obc.last ==> s.obc.last)
  {
  }

  lemma PowerFollowsStays(s: Sys, a: Action, after: Sys)
    requires Sound(s) && Takes(s, a, after) && IsCalm(s) && (after.obc.last ==> s.obc.last) && PowerFollows(s)
    ensures PowerFollows(after)
    ensures LoadFollows(s) ==> LoadFollows(after)
    ensures LoadFollows(s) && BusFollows(s) ==> BusFollows(after)
    ensures BusFollows(s) && SnapshotFollows(s) ==> SnapshotFollows(after)
  {
  }

  lemma ChildNormalStays(s: Sys, a: Action, after: Sys, c: nat)
    requires Sound(s) && Takes(s, a, after) && IsCalm(s) && !s.obc.last && c < 4 && !s.inbox[c].safe
    ensures !after.inbox[c].safe
    ensures c == POWER_CHILD && StoresNormal(s.power.bus) ==> StoresNormal(after.power.bus)
    ensures c == POWER_CHILD && StoresNormal(s.power.bus) && !s.bus.safe ==> !after.bus.safe
  {
    assert ChildInv(s, c);
  }

  lemma ToldStays(s: Sys, a: Action, after: Sys, c: nat)
    requires Sound(s) && Takes(s, a, after) && IsCalm(s) && !s.obc.last && c < 4 && HasBeenTold(s.inbox[c])
    ensures HasBeenTold(after.inbox[c])
  {
  }

  lemma FactStays(f: Fact, s: Sys, a: Action, after: Sys)
    requires Sound(s) && Takes(s, a, after) && IsTrue(f, s)
    ensures IsTrue(f, after)
  {
    match f {
      case Flag(_) => PlantFactsStay(f, s, a, after);
      case Level(_) => PlantFactsStay(f, s, a, after);
      case Clock(_) => PlantFactsStay(f, s, a, after);
      case SolarShown => BusFactsStay(f, s, a, after);
      case BatteryShown => BusFactsStay(f, s, a, after);
      case CpuShown => BusFactsStay(f, s, a, after);
      case Calm => CalmStays(s, a, after);
      case Normal => CalmStays(s, a, after);
      case Told(c) =>
        CalmStays(s, a, after);
        if c < 4 {
          ToldStays(s, a, after, c);
        }
      case ChildNormal(c) =>
        CalmStays(s, a, after);
        if c < 4 {
          ChildNormalStays(s, a, after, c);
        }
      case LoadNormal =>
        CalmStays(s, a, after);
        ChildNormalStays(s, a, after, POWER_CHILD);
      case BusNormal =>
        CalmStays(s, a, after);
        ChildNormalStays(s, a, after, POWER_CHILD);
      case _ =>
        CalmStays(s, a, after);
        PowerFollowsStays(s, a, after);
    }
  }

  lemma FactLasts(st: nat -> Sys, act: nat -> Action, f: Fact, n: nat, m: nat)
    requires FairRun(st, act) && n <= m && IsTrue(f, st(n))
    ensures IsTrue(f, st(m))
  {
    for k := n to m
      invariant IsTrue(f, st(k))
    {
      AlwaysSound(st, act, k);
      assert Takes(st(k), act(k), st(k + 1));
      FactStays(f, st(k), act(k), st(k + 1));
    }
  }

  // ----- and each of them becomes true -----

  lemma {:induction false} EclipsePasses(st: nat -> Sys, act: nat -> Action, clock: nat) returns (n: nat)
    requires FairRun(st, act)
    ensures IsTrue(Flag(clock), st(n))
  {
    if clock == 0 {
      n := 0;
    } else {
      var m := EclipsePasses(st, act, clock - 1);
      var k := Reaches(st, act, SetFlag, m);
      FactLasts(st, act, Flag(clock - 1), m, k);
      n := k + 1;
    }
  }

  lemma {:induction false} BatteryRecovers(st: nat -> Sys, act: nat -> Action, steps: nat) returns (n: nat)
    requires FairRun(st, act) && steps <= 33
    ensures IsTrue(Level(3 * steps), st(n))
  {
    if steps == 0 {
      n := EclipsePasses(st, act, ECLIPSE_END + 1);
      AlwaysSound(st, act, n);
    } else {
      var m := BatteryRecovers(st, act, steps - 1);
      var k := Reaches(st, act, DrawLevel, m);
      FactLasts(st, act, Level(3 * (steps - 1)), m, k);
      n := k + 1;
    }
  }

  lemma {:induction false} SpikePasses(st: nat -> Sys, act: nat -> Action, clock: nat) returns (n: nat)
    requires FairRun(st, act)
    ensures IsTrue(Clock(clock), st(n))
  {
    if clock == 0 {
      n := 0;
    } else {
      var m := SpikePasses(st, act, clock - 1);
      var k := Reaches(st, act, DrawCpu, m);
      FactLasts(st, act, Clock(clock - 1), m, k);
      n := k + 1;
    }
  }

  lemma SolarCopied(s: Sys, a: Action, after: Sys)
    requires Sound(s) && Takes(s, a, after) && StepOf(a, PowerBus) && Distance(CopySolar, s) == 0
    requires IsTrue(Level(21), s)
    ensures IsTrue(SolarShown, after)
  {
    PlantFactsStay(Level(21), s, a, after);
  }

  lemma BatteryCopied(s: Sys, a: Action, after: Sys)
    requires Sound(s) && Takes(s, a, after) && StepOf(a, PowerBus) && Distance(CopyBattery, s) == 0
    requires IsTrue(Level(21), s)
    ensures IsTrue(BatteryShown, after)
  {
    PlantFactsStay(Level(21), s, a, after);
  }

  lemma CpuCopied(s: Sys, a: Action, after: Sys)
    requires Sound(s) && Takes(s, a, after) && StepOf(a, ThermalBus) && Distance(CopyCpu, s) == 0
    requires IsTrue(Clock(38), s)
    ensures IsTrue(CpuShown, after)
  {
    PlantFactsStay(Clock(38), s, a, after);
  }

  lemma PowerTurnsHealthy(st: nat -> Sys, act: nat -> Action) returns (n: nat)
    requires FairRun(st, act)
    ensures IsTrue(SolarShown, st(n)) && IsTrue(BatteryShown, st(n))
  {
    var b := BatteryRecovers(st, act, 7);
    var solar := Reaches(st, act, CopySolar, b);
    FactLasts(st, act, Level(21), b, solar);
    SolarCopied(st(solar), act(solar), st(solar + 1));
    var battery := Reaches(st, act, CopyBattery, solar + 1);
    FactLasts(st, act, Level(21), b, battery);
    BatteryCopied(st(battery), act(battery), st(battery + 1));
    n := battery + 1;
    FactLasts(st, act, SolarShown, solar + 1, n);
  }

  lemma CpuTurnsHealthy(st: nat -> Sys, act: nat -> Action) returns (n: nat)
    requires FairRun(st, act)
    ensures IsTrue(CpuShown, st(n))
  {
    var c := SpikePasses(st, act, THERMAL_SPIKE + 8);
    var cpu := Reaches(st, act, CopyCpu, c);
    FactLasts(st, act, Clock(38), c, cpu);
    CpuCopied(st(cpu), act(cpu), st(cpu + 1));
    n := cpu + 1;
  }

  lemma WatchdogTurnsCalm(st: nat -> Sys, act: nat -> Action) returns (n: nat)
    requires FairRun(st, act)
    ensures IsTrue(Calm, st(n))
  {
    var p := PowerTurnsHealthy(st, act);
    var t := CpuTurnsHealthy(st, act);
    n := Reaches(st, act, BeginSnapshot, p + t);
    FactLasts(st, act, SolarShown, p, n);
    FactLasts(st, act, BatteryShown, p, n);
    FactLasts(st, act, CpuShown, t, n);
  }

  lemma SignalsAreHandled(st: nat -> Sys, act: nat -> Action, n: nat, c: nat) returns (m: nat)
    requires FairRun(st, act) && c < 4
    ensures n <= m && NothingPending(st(m).inbox[c]) && Sound(st(m))
  {
    m := EveryInboxDrains(st, act, n, c);
    AlwaysSound(st, act, m);
  }

  lemma ModeLoaded(s: Sys, a: Action, after: Sys)
    requires Sound(s) && Takes(s, a, after) && StepOf(a, PowerBus) && Distance(LoadMode, s) == 0
    ensures IsTrue(Heard, s) ==> IsTrue(Loaded, after)
    ensures IsTrue(ChildNormal(POWER_CHILD), s) ==> IsTrue(LoadNormal, after)
  {
    assert after.power.bus == PbMode(s.inbox[POWER_CHILD].safe);
    if IsTrue(Heard, s) {
      FactStays(Heard, s, a, after);
      CalmStays(s, a, after);
    }
    if IsTrue(ChildNormal(POWER_CHILD), s) {
      FactStays(ChildNormal(POWER_CHILD), s, a, after);
    }
  }

  lemma ModeStored(s: Sys, a: Action, after: Sys)
    requires Sound(s) && Takes(s, a, after) && StepOf(a, PowerBus) && Distance(StoreMode, s) == 0
    ensures IsTrue(Loaded, s) ==> IsTrue(Shown, after)
    ensures IsTrue(LoadNormal, s) ==> IsTrue(BusNormal, after)
  {
    assert s.power.bus.PbMode? && after.bus.safe == s.power.bus.mode;
    if IsTrue(Loaded, s) {
      FactStays(Loaded, s, a, after);
      CalmStays(s, a, after);
    }
    if IsTrue(LoadNormal, s) {
      FactStays(LoadNormal, s, a, after);
    }
  }

  lemma DecidedOnHealthyRead(s: Sys, a: Action, after: Sys)
    requires Sound(s) && Takes(s, a, after) && StepOf(a, Watchdog) && Distance(Decide, s) == 0 && IsTrue(Read, s)
    ensures IsTrue(Normal, after)
  {
    CalmStays(s, a, after);
  }

  lemma PowerHears(st: nat -> Sys, act: nat -> Action) returns (n: nat)
    requires FairRun(st, act)
    ensures IsTrue(Heard, st(n))
  {
    var calm := WatchdogTurnsCalm(st, act);
    n := SignalsAreHandled(st, act, calm, POWER_CHILD);
    FactLasts(st, act, Calm, calm, n);
    assert ChildInv(st(n), POWER_CHILD);
  }

  lemma BusShowsSafe(st: nat -> Sys, act: nat -> Action) returns (n: nat)
    requires FairRun(st, act)
    ensures IsTrue(Shown, st(n))
  {
    var heard := PowerHears(st, act);
    var load := Reaches(st, act, LoadMode, heard);
    FactLasts(st, act, Heard, heard, load);
    ModeLoaded(st(load), act(load), st(load + 1));
    var store := Reaches(st, act, StoreMode, load + 1);
    FactLasts(st, act, Loaded, load + 1, store);
    ModeStored(st(store), act(store), st(store + 1));
    n := store + 1;
  }

  lemma WatchdogReadsSafe(st: nat -> Sys, act: nat -> Action) returns (n: nat)
    requires FairRun(st, act)
    ensures IsTrue(Read, st(n))
  {
    var shown := BusShowsSafe(st, act);
    n := Reaches(st, act, BeginSnapshot, shown);
    FactLasts(st, act, Shown, shown, n);
  }

  lemma NormalIsBroadcast(st: nat -> Sys, act: nat -> Action) returns (n: nat)
    requires FairRun(st, act)
    ensures IsTrue(Normal, st(n))
  {
    var read := WatchdogReadsSafe(st, act);
    var decide := Reaches(st, act, Decide, read);
    FactLasts(st, act, Read, read, decide);
    DecidedOnHealthyRead(st(decide), act(decide), st(decide + 1));
    n := decide + 1;
  }

  lemma ChildTurnsNormal(st: nat -> Sys, act: nat -> Action, c: nat) returns (n: nat)
    requires FairRun(st, act) && c < 4
    ensures IsTrue(ChildNormal(c), st(n))
  {
    var m := NormalIsBroadcast(st, act);
    var snap := Reaches(st, act, BeginSnapshot, m);
    FactLasts(st, act, Normal, m, snap);
    assert ChildInv(st(snap), c);
    assert IsTrue(Told(c), st(snap));
    n := SignalsAreHandled(st, act, snap, c);
    FactLasts(st, act, Told(c), snap, n);
  }

  lemma BusTurnsNormal(st: nat -> Sys, act: nat -> Action) returns (n: nat)
    requires FairRun(st, act)
    ensures IsTrue(BusNormal, st(n))
  {
    var m := ChildTurnsNormal(st, act, POWER_CHILD);
    var load := Reaches(st, act, LoadMode, m);
    FactLasts(st, act, ChildNormal(POWER_CHILD), m, load);
    ModeLoaded(st(load), act(load), st(load + 1));
    var store := Reaches(st, act, StoreMode, load + 1);
    FactLasts(st, act, LoadNormal, load + 1, store);
    ModeStored(st(store), act(store), st(store + 1));
    n := store + 1;
  }

  // The last broadcast, the bus and all four children say NORMAL.
  predicate AllNormal(s: Sys) {
    && !s.obc.last && !s.bus.safe
    && !s.inbox[POWER_CHILD].safe && !s.inbox[THERMAL_CHILD].safe && !s.inbox[COMMS_CHILD].safe
    && !s.inbox[LOGGER_CHILD].safe
  }

  // Every fair run in which each broadcast finds the one before handled ends in NORMAL mode for ever.
  lemma SystemSettles(st: nat -> Sys, act: nat -> Action) returns (n: nat)
    requires FairRun(st, act)
    ensures forall m: nat | n <= m :: AllNormal(st(m))
  {
    var power := BusTurnsNormal(st, act);
    var thermal := ChildTurnsNormal(st, act, THERMAL_CHILD);
    var comms := ChildTurnsNormal(st, act, COMMS_CHILD);
    var logger := ChildTurnsNormal(st, act, LOGGER_CHILD);
    n := power + thermal + comms + logger;
    forall m: nat | n <= m ensures AllNormal(st(m)) {
      FactLasts(st, act, BusNormal, power, m);
      FactLasts(st, act, ChildNormal(THERMAL_CHILD), thermal, m);
      FactLasts(st, act, ChildNormal(COMMS_CHILD), comms, m);
      FactLasts(st, act, ChildNormal(LOGGER_CHILD), logger, m);
    }
  }
}
