/**
 The whole system as one labelled transition system. Ten threads carry explicit program
 counters; one step is one lock operation, one queue operation, one load or store of data that no
 mutex guards, or one update of data under its mutex; so a lock held across a blocking call is
 visible. The runs modelled are those before shutdown.
 */
module Spacecraft {
  import opened Alerts
  import opened Latch
  import opened PowerPlant
  import opened ThermalPlant
  import opened CommsLink
  import opened MessageQueue

  datatype Tid =
    | Solar | Battery | PowerBus
    | Sensor | Heater | ThermalBus
    | Uplink | Downlink
    | Watchdog | Logger

  // ----- program counters; the first constructor of each is the thread's sleep -----

  datatype SolarPc = SolarAsleep | SolarLock | SolarWatts | SolarFlag | SolarUnlock

  datatype BatteryPc =
    | BatAsleep | BatLock | BatLevel | BatJudge
    | BatUnlockSend(alert: Alert) | BatSend(alert: Alert)  // WARNING and CRITICAL: unlock, then send
    | BatSendHeld(alert: Alert)                            // INFO: sent with the mutex still held
    | BatUnlock

  // PbLoad reads the power process's g_safe_mode, which no lock guards; PbMode stores what was read.
  datatype PowerBusPc =
    | PbAsleep | PbSem | PbLock | PbSolar | PbBattery | PbLoad | PbMode(mode: bool) | PbUnlock | PbPost

  datatype SensorPc =
    | SenAsleep | SenLock | SenBattery | SenAntenna | SenBody | SenCpu | SenJudge
    | SenUnlockSend(alert: Alert) | SenSend(alert: Alert) | SenUnlock

  datatype HeaterPc = HeatAsleep | HeatLock | HeatJudge | HeatSendHeld(alert: Alert) | HeatUnlock

  datatype ThermalBusPc =
    | TbAsleep | TbSem | TbLock | TbCpu | TbBattery | TbAntenna | TbBody | TbUnlock | TbPost

  datatype UplinkPc =
    | UpAsleep | UpLock(command: Option<Command>) | UpUnlock(command: Option<Command>)
    | UpDispatch(order: Command)
    | UpStatusSem | UpStatusPost | UpSend(alert: Alert) | UpLastLock | UpLastUnlock

  datatype DownlinkPc =
    | DnAsleep | DnLock | DnMode | DnDropout | DnSignal(dropout: bool) | DnJudge
    | DnUnlockSend(alert: Alert) | DnSend(alert: Alert) | DnUnlockRest
    | DnUnlock(sig: int) | DnSnapshot(sig: int) | DnSem(sig: int) | DnWrite(sig: int) | DnPost

  datatype WatchPc =
    | WAsleep | WSem | WBattery | WTemp | WSolar | WSafe | WPost | WDecide
    | WKill(child: nat, safe: bool) | WSem2(safe: bool) | WWrite(safe: bool) | WPost2

  datatype LoggerPc = LgTop | LgReceive | LgHandle(alert: Alert)

  // ----- the processes -----

  datatype Power = Power(d: PowerData, elapsed: nat, mutex: Option<Tid>,
                         solar: SolarPc, battery: BatteryPc, bus: PowerBusPc)

  datatype Thermal = Thermal(d: ThermalData, elapsed: nat, mutex: Option<Tid>,
                             sensor: SensorPc, heater: HeaterPc, bus: ThermalBusPc)

  datatype Comms = Comms(d: CommsData, elapsed: nat, mutex: Option<Tid>,
                         uplink: UplinkPc, downlink: DownlinkPc)

  // batt, temp, solar and safe are the locals of watchdog(); `last` is the mode broadcast most
  // recently, a history variable that no step reads.
  datatype Obc = Obc(pc: WatchPc, tick: nat, batt: int, temp: int, solar: int, safe: bool, last: bool)

  datatype LoggerState = LoggerState(pc: LoggerPc, paused: bool, log: seq<Alert>)

  // The telemetry bus in shared memory.
  datatype Bus = Bus(battery: int, solar: int, cpu: int, zoneBattery: int, zoneAntenna: int, zoneBody: int,
                     signal: int, safe: bool)

  // A child's g_safe_mode and the signals pending for it. Standard signals do not queue.
  datatype Inbox = Inbox(safe: bool, usr1: bool, usr2: bool)

  const POWER_CHILD := 0
  const THERMAL_CHILD := 1
  const COMMS_CHILD := 2
  const LOGGER_CHILD := 3

  type Inboxes = s: seq<Inbox> | |s| == 4
    witness seq(4, c => Inbox(false, false, false))

  datatype Sys = Sys(power: Power, thermal: Thermal, comms: Comms, obc: Obc, logger: LoggerState,
                     bus: Bus, sem: Option<Tid>, queue: seq<Alert>, inbox: Inboxes)

  function Init(): Sys {
    var quiet := Inbox(false, false, false);
    Sys(Power(INITIAL_POWER, 0, None, SolarAsleep, BatAsleep, PbAsleep),
        Thermal(INITIAL_THERMAL, 0, None, SenAsleep, HeatAsleep, TbAsleep),
        Comms(INITIAL_COMMS, 0, None, UpAsleep, DnAsleep),
        Obc(WAsleep, 0, 0, 0, 0, false, false),
        LoggerState(LgTop, false, []),
        Bus(100, 110, 30, 20, 25, 22, 90, false),
        None, [], [quiet, quiet, quiet, quiet])
  }

  // ----- what a thread waits for at its current step -----

  datatype Want = Ready | WantSem | WantPower | WantThermal | WantComms | WantSpace

  function Wants(s: Sys, t: Tid): Want {
    match t
    case Solar => if s.power.solar.SolarLock? then WantPower else Ready
    case Battery =>
      if s.power.battery.BatLock? then WantPower
      else if s.power.battery.BatSend? || s.power.battery.BatSendHeld? then WantSpace
      else Ready
    case PowerBus =>
      if s.power.bus.PbSem? then WantSem else if s.power.bus.PbLock? then WantPower else Ready
    case Sensor =>
      if s.thermal.sensor.SenLock? then WantThermal
      else if s.thermal.sensor.SenSend? then WantSpace
      else Ready
    case Heater =>
      if s.thermal.heater.HeatLock? then WantThermal
      else if s.thermal.heater.HeatSendHeld? then WantSpace
      else Ready
    case ThermalBus =>
      if s.thermal.bus.TbSem? then WantSem else if s.thermal.bus.TbLock? then WantThermal else Ready
    case Uplink =>
      if s.comms.uplink.UpLock? || s.comms.uplink.UpLastLock? then WantComms
      else if s.comms.uplink.UpStatusSem? then WantSem
      else if s.comms.uplink.UpSend? then WantSpace
      else Ready
    case Downlink =>
      if s.comms.downlink.DnLock? then WantComms
      else if s.comms.downlink.DnSem? then WantSem
      else if s.comms.downlink.DnSend? then WantSpace
      else if s.comms.downlink.DnSnapshot? && s.comms.elapsed % 30 == 0 then WantSpace
      else Ready
    case Watchdog => if s.obc.pc.WSem? || s.obc.pc.WSem2? then WantSem else Ready
    case Logger => Ready
  }

  predicate Granted(s: Sys, w: Want) {
    match w
    case Ready => true
    case WantSem => s.sem.None?
    case WantPower => s.power.mutex.None?
    case WantThermal => s.thermal.mutex.None?
    case WantComms => s.comms.mutex.None?
    case WantSpace => |s.queue| < MQ_MAX_MESSAGES
  }

  // Thread t takes its next step, with rand() or the FIFO returning `pick`; or a signal is handled.
  datatype Action = Step(t: Tid, pick: nat) | Deliver(child: nat, safe: bool)

  predicate Enabled(s: Sys, a: Action) {
    match a
    case Step(t, _) => Granted(s, Wants(s, t))
    case Deliver(c, safe) => c < 4 && (if safe then s.inbox[c].usr1 else s.inbox[c].usr2)
  }

  // ----- what one step of thread t does to each component -----

  function BatteryJudged(p: Power): Power {
    var v := Judge(p.d.faultActive, BatteryBand(p.d.batteryPct));
    var d := p.d.(faultActive := v.fault);
    match v.report
    case None => p.(d := d, battery := BatUnlock)
    case Some(INFO) => p.(d := d, battery := BatSendHeld(BatteryAlert(INFO, d.batteryPct)))
    case Some(severity) => p.(d := d, battery := BatUnlockSend(BatteryAlert(severity, d.batteryPct)))
  }

  function SolarNext(p: Power, pick: nat): Power {
    match p.solar
    case SolarAsleep => p.(elapsed := p.elapsed + 1, solar := SolarLock)
    case SolarLock => p.(mutex := Some(Solar), solar := SolarWatts)
    case SolarWatts => p.(d := p.d.(solarWatts := SolarReading(p.elapsed, pick)), solar := SolarFlag)
    case SolarFlag => p.(d := p.d.(inEclipse := EclipseWindow(p.elapsed)), solar := SolarUnlock)
    case SolarUnlock => p.(mutex := None, solar := SolarAsleep)
  }

  function BatteryNext(p: Power, pick: nat): Power {
    match p.battery
    case BatAsleep => p.(battery := BatLock)
    case BatLock => p.(mutex := Some(Battery), battery := BatLevel)
    case BatLevel => p.(d := p.d.(batteryPct := BatteryReading(p.d, pick)), battery := BatJudge)
    case BatJudge => BatteryJudged(p)
    case BatUnlockSend(a) => p.(mutex := None, battery := BatSend(a))
    case BatSend(_) => p.(battery := BatAsleep)
    case BatSendHeld(_) => p.(battery := BatUnlock)
    case BatUnlock => p.(mutex := None, battery := BatAsleep)
  }

  function PowerBusNext(p: Power, safe: bool): Power {
    match p.bus
    case PbAsleep => p.(bus := PbSem)
    case PbSem => p.(bus := PbLock)
    case PbLock => p.(mutex := Some(PowerBus), bus := PbSolar)
    case PbSolar => p.(bus := PbBattery)
    case PbBattery => p.(bus := PbLoad)
    case PbLoad => p.(bus := PbMode(safe))
    case PbMode(_) => p.(bus := PbUnlock)
    case PbUnlock => p.(mutex := None, bus := PbPost)
    case PbPost => p.(bus := PbAsleep)
  }

  function PowerNext(p: Power, t: Tid, pick: nat, safe: bool): Power {
    match t
    case Solar => SolarNext(p, pick)
    case Battery => BatteryNext(p, pick)
    case PowerBus => PowerBusNext(p, safe)
    case _ => p
  }

  function SensorJudged(p: Thermal): Thermal {
    var v := Judge(p.d.faultActive, CpuBand(p.d.cpu));
    var d := p.d.(faultActive := v.fault);
    match v.report
    case None => p.(d := d, sensor := SenUnlock)
    case Some(severity) => p.(d := d, sensor := SenUnlockSend(CpuAlert(severity, d.cpu)))
  }

  function SensorNext(p: Thermal, pick: nat): Thermal {
    match p.sensor
    case SenAsleep => p.(elapsed := p.elapsed + 1, sensor := SenLock)
    case SenLock => p.(mutex := Some(Sensor), sensor := SenBattery)
    case SenBattery => p.(d := p.d.(battery := pick % 15 + 15), sensor := SenAntenna)
    case SenAntenna => p.(d := p.d.(antenna := pick % 20 + 20), sensor := SenBody)
    case SenBody => p.(d := p.d.(body := pick % 15 + 18), sensor := SenCpu)
    case SenCpu => p.(d := p.d.(cpu := CpuReading(p.elapsed, p.d.cpu, pick)), sensor := SenJudge)
    case SenJudge => SensorJudged(p)
    case SenUnlockSend(a) => p.(mutex := None, sensor := SenSend(a))
    case SenSend(_) => p.(sensor := SenAsleep)
    case SenUnlock => p.(mutex := None, sensor := SenAsleep)
  }

  function HeaterNext(p: Thermal): Thermal {
    match p.heater
    case HeatAsleep => p.(heater := HeatLock)
    case HeatLock => p.(mutex := Some(Heater), heater := HeatJudge)
    case HeatJudge =>
      var (on, report) := HeaterVerdict(p.d);
      p.(d := p.d.(heaterOn := on), heater := if report.Some? then HeatSendHeld(report.value) else HeatUnlock)
    case HeatSendHeld(_) => p.(heater := HeatUnlock)
    case HeatUnlock => p.(mutex := None, heater := HeatAsleep)
  }

  function ThermalBusNext(p: Thermal): Thermal {
    match p.bus
    case TbAsleep => p.(bus := TbSem)
    case TbSem => p.(bus := TbLock)
    case TbLock => p.(mutex := Some(ThermalBus), bus := TbCpu)
    case TbCpu => p.(bus := TbBattery)
    case TbBattery => p.(bus := TbAntenna)
    case TbAntenna => p.(bus := TbBody)
    case TbBody => p.(bus := TbUnlock)
    case TbUnlock => p.(mutex := None, bus := TbPost)
    case TbPost => p.(bus := TbAsleep)
  }

  function ThermalNext(p: Thermal, t: Tid, pick: nat): Thermal {
    match t
    case Sensor => SensorNext(p, pick)
    case Heater => HeaterNext(p)
    case ThermalBus => ThermalBusNext(p)
    case _ => p
  }

  // What one non-blocking read of the FIFO brings: nothing, or a command.
  function FifoRead(pick: nat): Option<Command> {
    match pick % 6
    case 0 => None
    case 1 => Some(STATUS)
    case 2 => Some(SAFE_MODE)
    case 3 => Some(SNAPSHOT)
    case 4 => Some(RESET_ADCS)
    case _ => Some(UNKNOWN)
  }

  function UplinkNext(p: Comms, pick: nat): Comms {
    match p.uplink
    case UpAsleep => p.(uplink := UpLock(FifoRead(pick)))
    case UpLock(c) => p.(mutex := Some(Uplink), uplink := UpUnlock(c))
    case UpUnlock(c) => p.(mutex := None, uplink := if c.None? then UpAsleep else UpDispatch(c.value))
    case UpDispatch(c) =>
      // SAFE_MODE and RESET_ADCS signal the OBC, which only sets variables of its own that nothing reads.
      p.(uplink := match c
                   case STATUS => UpStatusSem
                   case SNAPSHOT => UpSend(Alert(COMMS, INFO, 0, 0, GroundSnapshot))
                   case _ => UpLastLock)
    case UpStatusSem => p.(uplink := UpStatusPost)
    case UpStatusPost => p.(uplink := UpLastLock)
    case UpSend(_) => p.(uplink := UpLastLock)
    case UpLastLock => p.(mutex := Some(Uplink), uplink := UpLastUnlock)
    case UpLastUnlock => p.(mutex := None, uplink := UpAsleep)
  }

  function DownlinkJudged(p: Comms): Comms {
    var v := Judge(p.d.faultActive, SignalBand(p.d.signal));
    var d := p.d.(faultActive := v.fault);
    match v.report
    case None => p.(d := d, downlink := DnUnlock(d.signal))
    case Some(severity) => p.(d := d, downlink := DnUnlockSend(SignalAlert(severity, d.signal)))
  }

  function DownlinkNext(p: Comms, pick: nat, safe: bool): Comms {
    match p.downlink
    case DnAsleep => p.(elapsed := p.elapsed + 1, downlink := DnLock)
    case DnLock => p.(mutex := Some(Downlink), downlink := DnMode)
    case DnMode => if safe then p.(d := p.d.(signal := 0), downlink := DnUnlockRest) else p.(downlink := DnDropout)
    case DnDropout => p.(downlink := DnSignal(pick % 20 == 0))
    case DnSignal(dropout) => p.(d := p.d.(signal := SignalReading(dropout, pick)), downlink := DnJudge)
    case DnJudge => DownlinkJudged(p)
    case DnUnlockSend(a) => p.(mutex := None, downlink := DnSend(a))
    case DnSend(_) => p.(downlink := DnAsleep)
    case DnUnlockRest => p.(mutex := None, downlink := DnAsleep)
    case DnUnlock(sig) => p.(mutex := None, downlink := DnSnapshot(sig))
    case DnSnapshot(sig) => p.(downlink := DnSem(sig))
    case DnSem(sig) => p.(downlink := DnWrite(sig))
    case DnWrite(_) => p.(downlink := DnPost)
    case DnPost => p.(downlink := DnAsleep)
  }

  function CommsNext(p: Comms, t: Tid, pick: nat, safe: bool): Comms {
    match t
    case Uplink => UplinkNext(p, pick)
    case Downlink => DownlinkNext(p, pick, safe)
    case _ => p
  }

  // watchdog()'s two tests on its snapshot.
  predicate EntersSafe(o: Obc) {
    !o.safe && (o.batt <= BATTERY_CRITICAL || o.temp >= TEMP_CRITICAL)
  }

  predicate LeavesSafe(o: Obc) {
    o.safe && o.batt > BATTERY_WARNING && o.temp < TEMP_WARNING && o.solar > 0
  }

  function WatchdogNext(o: Obc, b: Bus): Obc {
    match o.pc
    case WAsleep => o.(tick := o.tick + 1, pc := if (o.tick + 1) % 2 == 0 then WSem else WAsleep)
    case WSem => o.(pc := WBattery)
    case WBattery => o.(batt := b.battery, pc := WTemp)
    case WTemp => o.(temp := b.cpu, pc := WSolar)
    case WSolar => o.(solar := b.solar, pc := WSafe)
    case WSafe => o.(safe := b.safe, pc := WPost)
    case WPost => o.(pc := WDecide)
    case WDecide =>
      if EntersSafe(o) then o.(last := true, pc := WKill(0, true))
      else if LeavesSafe(o) then o.(last := false, pc := WKill(0, false))
      else o.(pc := WAsleep)
    case WKill(c, safe) => o.(pc := if c < 4 then WKill(c + 1, safe) else WSem2(safe))
    case WSem2(safe) => o.(pc := WWrite(safe))
    case WWrite(_) => o.(pc := WPost2)
    case WPost2 => o.(pc := WAsleep)
  }

  function ObcNext(o: Obc, t: Tid, b: Bus): Obc {
    if t == Watchdog then WatchdogNext(o, b) else o
  }

  predicate Logs(l: LoggerState, a: Alert) {
    !l.paused || a.severity == CRITICAL
  }

  function LoggerNext(l: LoggerState, t: Tid, q: seq<Alert>, safe: bool): LoggerState {
    if t != Logger then l
    else
      match l.pc
      // The pause test reads g_safe_mode twice, but whichever value g_paused has, only one read decides.
      case LgTop => l.(paused := safe, pc := LgReceive)
      // On an empty queue mq_timedreceive times out.
      case LgReceive => l.(pc := if q == [] then LgTop else LgHandle(q[0]))
      case LgHandle(a) => l.(log := if Logs(l, a) then l.log + [a] else l.log, pc := LgTop)
  }

  function BusNext(s: Sys, t: Tid): Bus {
    match t
    case PowerBus => (
      match s.power.bus
      case PbSolar => s.bus.(solar := s.power.d.solarWatts)
      case PbBattery => s.bus.(battery := s.power.d.batteryPct)
      case PbMode(mode) => s.bus.(safe := mode)
      case _ => s.bus)
    case ThermalBus => (
      match s.thermal.bus
      case TbCpu => s.bus.(cpu := s.thermal.d.cpu)
      case TbBattery => s.bus.(zoneBattery := s.thermal.d.battery)
      case TbAntenna => s.bus.(zoneAntenna := s.thermal.d.antenna)
      case TbBody => s.bus.(zoneBody := s.thermal.d.body)
      case _ => s.bus)
    case Downlink => if s.comms.downlink.DnWrite? then s.bus.(signal := s.comms.downlink.sig) else s.bus
    case Watchdog => if s.obc.pc.WWrite? then s.bus.(safe := s.obc.pc.safe) else s.bus
    case _ => s.bus
  }

  predicate Posts(s: Sys, t: Tid) {
    match t
    case PowerBus => s.power.bus.PbPost?
    case ThermalBus => s.thermal.bus.TbPost?
    case Uplink => s.comms.uplink.UpStatusPost?
    case Downlink => s.comms.downlink.DnPost?
    case Watchdog => s.obc.pc.WPost? || s.obc.pc.WPost2?
    case _ => false
  }

  function SemNext(s: Sys, t: Tid): Option<Tid> {
    if Wants(s, t) == WantSem then Some(t) else if Posts(s, t) then None else s.sem
  }

  // The alert that thread t puts into the queue at its current step.
  function Sends(s: Sys, t: Tid): Option<Alert> {
    match t
    case Battery =>
      if s.power.battery.BatSend? || s.power.battery.BatSendHeld? then Some(s.power.battery.alert) else None
    case Sensor => if s.thermal.sensor.SenSend? then Some(s.thermal.sensor.alert) else None
    case Heater => if s.thermal.heater.HeatSendHeld? then Some(s.thermal.heater.alert) else None
    case Uplink => if s.comms.uplink.UpSend? then Some(s.comms.uplink.alert) else None
    case Downlink =>
      if s.comms.downlink.DnSend? then Some(s.comms.downlink.alert)
      else if s.comms.downlink.DnSnapshot? && s.comms.elapsed % 30 == 0 then
        Some(Alert(COMMS, INFO, s.comms.downlink.sig, 0, PeriodicSnapshot))
      else None
    case _ => None
  }

  predicate Receives(s: Sys, t: Tid) {
    t == Logger && s.logger.pc.LgReceive? && s.queue != []
  }

  function QueueNext(s: Sys, t: Tid): seq<Alert> {
    if Sends(s, t).Some? then Insert(s.queue, Sends(s, t).value)
    else if Receives(s, t) then s.queue[1..]
    else s.queue
  }

  // kill() makes one signal pending; a second copy of a pending signal is lost.
  function Kill(i: Inbox, safe: bool): Inbox {
    if safe then i.(usr1 := true) else i.(usr2 := true)
  }

  function Handled(i: Inbox, safe: bool): Inbox {
    if safe then Inbox(true, false, i.usr2) else Inbox(false, i.usr1, false)
  }

  function InboxNext(s: Sys, t: Tid): Inboxes {
    if t == Watchdog && s.obc.pc.WKill? && s.obc.pc.child < 4 then
      var c := s.obc.pc.child;
      s.inbox[c := Kill(s.inbox[c], s.obc.pc.safe)]
    else s.inbox
  }

  // Meaningful for enabled actions only.
  function Next(s: Sys, a: Action): Sys {
    match a
    case Step(t, pick) =>
      Sys(PowerNext(s.power, t, pick, s.inbox[POWER_CHILD].safe), ThermalNext(s.thermal, t, pick),
          CommsNext(s.comms, t, pick, s.inbox[COMMS_CHILD].safe),
          ObcNext(s.obc, t, s.bus), LoggerNext(s.logger, t, s.queue, s.inbox[LOGGER_CHILD].safe),
          BusNext(s, t), SemNext(s, t), QueueNext(s, t), InboxNext(s, t))
    case Deliver(c, safe) => if c < 4 then s.(inbox := s.inbox[c := Handled(s.inbox[c], safe)]) else s
  }

  ghost predicate Takes(s: Sys, a: Action, after: Sys) {
    Enabled(s, a) && after == Next(s, a)
  }

  ghost predicate StepAt(states: seq<Sys>, acts: seq<Action>, k: int)
    requires 0 <= k < |acts| < |states|
  {
    Takes(states[k], acts[k], states[k + 1])
  }

  ghost predicate Path(states: seq<Sys>, acts: seq<Action>) {
    && |states| == |acts| + 1
    && forall k | 0 <= k < |acts| :: StepAt(states, acts, k)
  }

  // A finite run of the system from power-up.
  ghost predicate Execution(states: seq<Sys>, acts: seq<Action>) {
    Path(states, acts) && states[0] == Init()
  }

  lemma PathsCompose(s: seq<Sys>, a: seq<Action>, s': seq<Sys>, a': seq<Action>)
    requires Path(s, a) && Path(s', a') && s[|a|] == s'[0]
    ensures Path(s + s'[1..], a + a')
  {
    forall k | 0 <= k < |a + a'| ensures StepAt(s + s'[1..], a + a', k) {
      if k < |a| {
        assert StepAt(s, a, k);
      } else {
        assert StepAt(s', a', k - |a|);
      }
    }
  }
}
