/** The thermal process, one thread at a time: thermal/thermal.c and thermal/thermal_threads.c. */
module ThermalUnit {
  import opened Alerts
  import opened Latch
  import opened ThermalPlant
  import opened Spacecraft
  import opened SharedMemory
  import opened PlantRuns

  // The four values that rand() returns in one pass of sensor_thread.
  datatype Draws = Draws(battery: nat, antenna: nat, body: nat, cpu: nat)

  // What pass number `pass` of sensor_thread makes of the data, and the alert it sends.
  function SensorPass(d: ThermalData, pass: nat, draws: Draws): (ThermalData, seq<Alert>) {
    var drawn := d.(battery := draws.battery % 15 + 15, antenna := draws.antenna % 20 + 20,
                    body := draws.body % 15 + 18, cpu := CpuReading(pass, d.cpu, draws.cpu));
    var v := Judge(d.faultActive, CpuBand(drawn.cpu));
    (drawn.(faultActive := v.fault), if v.report.Some? then [CpuAlert(v.report.value, drawn.cpu)] else [])
  }

  // Passes 1 to |draws|, starting from power-up.
  function SensorPasses(draws: seq<Draws>): (ThermalData, seq<Alert>) {
    if draws == [] then (INITIAL_THERMAL, [])
    else
      var (before, sent) := SensorPasses(draws[..|draws| - 1]);
      var (after, alerts) := SensorPass(before, |draws|, draws[|draws| - 1]);
      (after, sent + alerts)
  }

  // The steps of the system model that hold the mutex are one pass.
  lemma PassIsFiveSteps(p: Thermal, draws: Draws, pick: nat)
    requires p.sensor.SenBattery?
    ensures var zones := SensorNext(SensorNext(SensorNext(p, draws.battery), draws.antenna), draws.body);
            var q := SensorNext(SensorNext(zones, draws.cpu), pick);
            var (d, alerts) := SensorPass(p.d, p.elapsed, draws);
            && q.d == d && q.mutex == p.mutex
            && q.sensor == if alerts == [] then SenUnlock else SenUnlockSend(alerts[0])
  {
  }

  // For every choice of random values the CPU temperature after pass n follows one trajectory, so the
  // clamp at 35 is never reached, and the alerts are CRITICAL 110 at pass 30, then INFO 80 at pass 36.
  lemma {:induction false} ExactRun(draws: seq<Draws>)
    ensures var (d, sent) := SensorPasses(draws);
            && CpuTrajectory(|draws|, d.cpu) && sent == SpikeAlerts(|draws|)
            && (d.faultActive <==> THERMAL_SPIKE <= |draws| < THERMAL_SPIKE + 6)
            && 15 <= d.battery < 30 && 20 <= d.antenna < 40 && 18 <= d.body < 33 && !d.heaterOn
  {
    if draws == [] {
    } else {
      ExactRun(draws[..|draws| - 1]);
    }
  }

  // What one pass of bus_writer_thread leaves on the bus.
  function ThermalShown(d: ThermalData, b: Bus): Bus {
    b.(cpu := d.cpu, zoneBattery := d.battery, zoneAntenna := d.antenna, zoneBody := d.body)
  }

  function CopyStep(s: Sys): Sys {
    s.(thermal := ThermalBusNext(s.thermal), bus := BusNext(s, ThermalBus))
  }

  // The four writes of the system model, while the data stands still, are that pass.
  lemma CopyIsFourSteps(s: Sys)
    requires s.thermal.bus.TbCpu?
    ensures var after := CopyStep(CopyStep(CopyStep(CopyStep(s))));
            && after.bus == ThermalShown(s.thermal.d, s.bus)
            && after.thermal.bus == TbUnlock && after.thermal.d == s.thermal.d
  {
  }

  predicate ComesTo(before: seq<Alert>, draws: seq<Draws>, d: ThermalData, sent: seq<Alert>) {
    d == SensorPasses(draws).0 && sent == before + SensorPasses(draws).1
  }

  lemma OneMorePass(before: seq<Alert>, draws: seq<Draws>, i: nat, d: ThermalData, sent: seq<Alert>)
    requires i < |draws| && ComesTo(before, draws[..i], d, sent)
    ensures var (after, alerts) := SensorPass(d, i + 1, draws[i]);
            ComesTo(before, draws[..i + 1], after, sent + alerts)
  {
    assert draws[..i + 1][..i] == draws[..i];
  }

  lemma SpikeByNumbers(n: nat)
    ensures n < 30 ==> SpikeAlerts(n) == []
    ensures 30 <= n < 36 ==> SpikeAlerts(n) == [Alert(THERMAL, CRITICAL, 110, 95, CpuOverheat)]
    ensures n >= 36 ==>
              SpikeAlerts(n)
              == [Alert(THERMAL, CRITICAL, 110, 95, CpuOverheat), Alert(THERMAL, INFO, 80, 85, CpuNormal)]
  {
  }

  lemma ThreadByNumbers(before: seq<Alert>, draws: seq<Draws>, d: ThermalData, sent: seq<Alert>)
    requires ComesTo(before, draws, d, sent)
    ensures CpuTrajectory(|draws|, d.cpu) && sent == before + SpikeAlerts(|draws|)
    ensures 30 <= |draws| <= 37 ==> d.cpu == 110 - 5 * (|draws| - 30)
    ensures |draws| < 30 ==> sent == before
    ensures 30 <= |draws| < 36 ==> sent == before + [Alert(THERMAL, CRITICAL, 110, 95, CpuOverheat)]
    ensures |draws| >= 36 ==>
              sent == before + [Alert(THERMAL, CRITICAL, 110, 95, CpuOverheat), Alert(THERMAL, INFO, 80, 85, CpuNormal)]
  {
    ExactRun(draws);
    SpikeByNumbers(|draws|);
  }

  class ThermalProcess {
    var cpu: int
    var battery: int
    var antenna: int
    var body: int
    var heaterOn: bool
    var faultActive: bool
    var elapsed: nat
    var sent: seq<Alert>

    function Data(): ThermalData
      reads this
    {
      ThermalData(cpu, battery, antenna, body, heaterOn, faultActive)
    }

    constructor ()
      ensures Data() == INITIAL_THERMAL && elapsed == 0 && sent == []
      ensures cpu == 30 && battery == 20 && antenna == 25 && body == 22 && !heaterOn && !faultActive
    {
      cpu, battery, antenna, body := 30, 20, 25, 22;
      heaterOn, faultActive, elapsed, sent := false, false, 0, [];
    }

    // The tests of the CPU temperature in sensor_thread.
    method JudgeCpu()
      modifies `faultActive, `sent
      ensures var v := Judge(old(faultActive), CpuBand(cpu));
              && faultActive == v.fault
              && sent == old(sent) + (if v.report.Some? then [CpuAlert(v.report.value, cpu)] else [])
      ensures if cpu >= 95 && !old(faultActive) then
                faultActive && sent == old(sent) + [Alert(THERMAL, CRITICAL, cpu, 95, CpuOverheat)]
              else if cpu >= 85 && !old(faultActive) then
                !faultActive && sent == old(sent) + [Alert(THERMAL, WARNING, cpu, 85, CpuElevated)]
              else if cpu < 85 && old(faultActive) then
                !faultActive && sent == old(sent) + [Alert(THERMAL, INFO, cpu, 85, CpuNormal)]
              else faultActive == old(faultActive) && sent == old(sent)
    {
      if cpu >= TEMP_CRITICAL && !faultActive {
        faultActive := true;
        sent := sent + [Alert(THERMAL, CRITICAL, cpu, TEMP_CRITICAL, CpuOverheat)];
      } else if cpu >= TEMP_WARNING && !faultActive {
        sent := sent + [Alert(THERMAL, WARNING, cpu, TEMP_WARNING, CpuElevated)];
      } else if cpu < TEMP_WARNING && faultActive {
        faultActive := false;
        sent := sent + [Alert(THERMAL, INFO, cpu, TEMP_WARNING, CpuNormal)];
      }
    }

    method SensorPassOnce(draws: Draws)
      modifies `cpu, `battery, `antenna, `body, `faultActive, `elapsed, `sent
      ensures elapsed == old(elapsed) + 1
      ensures Data() == SensorPass(old(Data()), elapsed, draws).0
      ensures sent == old(sent) + SensorPass(old(Data()), elapsed, draws).1
      ensures battery == 15 + draws.battery % 15 && antenna == 20 + draws.antenna % 20 && body == 18 + draws.body % 15
      ensures elapsed == 30 ==> cpu == 110
      ensures 30 < elapsed < 38 ==> cpu == if old(cpu) >= 40 then old(cpu) - 5 else 35
      ensures elapsed < 30 || elapsed >= 38 ==> cpu == 28 + draws.cpu % 18
      ensures if cpu >= 95 && !old(faultActive) then
                faultActive && sent == old(sent) + [Alert(THERMAL, CRITICAL, cpu, 95, CpuOverheat)]
              else if cpu >= 85 && !old(faultActive) then
                !faultActive && sent == old(sent) + [Alert(THERMAL, WARNING, cpu, 85, CpuElevated)]
              else if cpu < 85 && old(faultActive) then
                !faultActive && sent == old(sent) + [Alert(THERMAL, INFO, cpu, 85, CpuNormal)]
              else faultActive == old(faultActive) && sent == old(sent)
    {
      elapsed := elapsed + 1;
      battery := draws.battery % 15 + 15;
      antenna := draws.antenna % 20 + 20;
      body := draws.body % 15 + 18;
      if elapsed == THERMAL_SPIKE {
        cpu := 110;
      } else if elapsed > THERMAL_SPIKE && elapsed < THERMAL_SPIKE + 8 {
        cpu := cpu - 5;
        if cpu < 35 {
          cpu := 35;
        }
      } else {
        cpu := draws.cpu % 18 + 28;
      }
      JudgeCpu();
    }

    // One pass as the loop below needs it.
    method SensorTurn(draws: Draws)
      modifies `cpu, `battery, `antenna, `body, `faultActive, `elapsed, `sent
      ensures elapsed == old(elapsed) + 1
      ensures (Data(), sent) == (SensorPass(old(Data()), elapsed, draws).0,
                                 old(sent) + SensorPass(old(Data()), elapsed, draws).1)
    {
      SensorPassOnce(draws);
    }

    method SensorLoop(draws: seq<Draws>)
      requires Data() == INITIAL_THERMAL && elapsed == 0
      modifies `cpu, `battery, `antenna, `body, `faultActive, `elapsed, `sent
      ensures ComesTo(old(sent), draws, Data(), sent)
    {
      ghost var before := sent;
      var i := 0;
      while i < |draws|
        invariant 0 <= i <= |draws| && elapsed == i
        invariant ComesTo(before, draws[..i], Data(), sent)
      {
        OneMorePass(before, draws, i, Data(), sent);
        SensorTurn(draws[i]);
        i := i + 1;
      }
      assert draws[..i] == draws;
    }

    // sensor_thread from power-up, for any number of passes.
    method SensorThread(draws: seq<Draws>)
      requires Data() == INITIAL_THERMAL && elapsed == 0
      modifies `cpu, `battery, `antenna, `body, `faultActive, `elapsed, `sent
      ensures Data() == SensorPasses(draws).0
      ensures CpuTrajectory(|draws|, cpu) && sent == old(sent) + SpikeAlerts(|draws|)
      ensures 30 <= |draws| <= 37 ==> cpu == 110 - 5 * (|draws| - 30)
      ensures |draws| < 30 ==> sent == old(sent)
      ensures 30 <= |draws| < 36 ==> sent == old(sent) + [Alert(THERMAL, CRITICAL, 110, 95, CpuOverheat)]
      ensures |draws| >= 36 ==>
                sent == old(sent)
                        + [Alert(THERMAL, CRITICAL, 110, 95, CpuOverheat), Alert(THERMAL, INFO, 80, 85, CpuNormal)]
    {
      SensorLoop(draws);
      ThreadByNumbers(old(sent), draws, Data(), sent);
    }

    // One pass of heater_thread: the heater goes on at 5 degrees, off above 10, and is left alone between.
    method HeaterPassOnce()
      modifies `heaterOn, `sent
      ensures var (on, alert) := HeaterVerdict(old(Data()));
              heaterOn == on && sent == old(sent) + (if alert.Some? then [alert.value] else [])
      ensures heaterOn != old(heaterOn) ==>
                if heaterOn then battery <= TEMP_FREEZE || antenna <= TEMP_FREEZE || body <= TEMP_FREEZE
                else battery > 10 && antenna > 10 && body > 10
      ensures battery > 10 && antenna > 10 && body > 10 ==> !heaterOn && sent == old(sent)
      ensures battery <= 5 || antenna <= 5 || body <= 5 ==> heaterOn
      ensures heaterOn && !old(heaterOn) ==>
                exists coldest ::
                  && (coldest == battery || coldest == antenna || coldest == body)
                  && coldest <= battery && coldest <= antenna && coldest <= body && coldest <= 5
                  && sent == old(sent) + [Alert(THERMAL, WARNING, coldest, 5, NearFreezing)]
      ensures !heaterOn || old(heaterOn) ==> sent == old(sent)
    {
      var minTemp := battery;
      if antenna < minTemp {
        minTemp := antenna;
      }
      if body < minTemp {
        minTemp := body;
      }
      if minTemp <= TEMP_FREEZE && !heaterOn {
        heaterOn := true;
        sent := sent + [Alert(THERMAL, WARNING, minTemp, TEMP_FREEZE, NearFreezing)];
      } else if minTemp > 10 && heaterOn {
        heaterOn := false;
      }
    }

    // One pass of bus_writer_thread.
    method BusWriterPass(bus: TelemetryBus)
      modifies bus`cpu, bus`zoneBattery, bus`zoneAntenna, bus`zoneBody
      ensures bus.View() == ThermalShown(Data(), old(bus.View()))
      ensures bus.cpu == cpu && bus.zoneBattery == battery && bus.zoneAntenna == antenna && bus.zoneBody == body
    {
      bus.cpu := cpu;
      bus.zoneBattery := battery;
      bus.zoneAntenna := antenna;
      bus.zoneBody := body;
    }
  }
}
