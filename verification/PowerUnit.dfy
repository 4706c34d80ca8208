/** The power process, one thread at a time: power/power.c and power/power_threads.c. */
module PowerUnit {
  import opened Alerts
  import opened Latch
  import opened PowerPlant
  import opened Spacecraft
  import opened SharedMemory

  // What one pass of battery_thread's loop makes of the data, and the alert it sends.
  function BatteryPass(d: PowerData, pick: nat): (PowerData, Option<Alert>) {
    var drawn := d.(batteryPct := BatteryReading(d, pick));
    var v := Judge(d.faultActive, BatteryBand(drawn.batteryPct));
    (drawn.(faultActive := v.fault),
     if v.report.Some? then Some(BatteryAlert(v.report.value, drawn.batteryPct)) else None)
  }

  // The passes for a sequence of rand() values, nothing else touching the data between them.
  function BatteryPasses(d: PowerData, picks: seq<nat>): (PowerData, seq<Alert>) {
    if picks == [] then (d, [])
    else
      var (before, sent) := BatteryPasses(d, picks[..|picks| - 1]);
      var (after, alert) := BatteryPass(before, picks[|picks| - 1]);
      (after, sent + (if alert.Some? then [alert.value] else []))
  }

  // The two steps of the system model that hold the mutex are one pass.
  lemma PassIsTwoSteps(p: Power, pick: nat, pick': nat)
    requires p.battery.BatLevel?
    ensures var q := BatteryNext(BatteryNext(p, pick), pick');
            var (d, alert) := BatteryPass(p.d, pick);
            && q.d == d && q.mutex == p.mutex
            && (alert.None? <==> q.battery == BatUnlock)
            && (alert.Some? && alert.value.severity == INFO ==> q.battery == BatSendHeld(alert.value))
            && (alert.Some? && alert.value.severity != INFO ==> q.battery == BatUnlockSend(alert.value))
  {
  }

  // What one pass of bus_writer_thread leaves on the bus.
  function PowerShown(d: PowerData, safe: bool, b: Bus): Bus {
    b.(solar := d.solarWatts, battery := d.batteryPct, safe := safe)
  }

  function CopyStep(s: Sys): Sys {
    s.(power := PowerBusNext(s.power, s.inbox[POWER_CHILD].safe), bus := BusNext(s, PowerBus))
  }

  // The four steps of the system model, while data and mode stand still, are that pass.
  lemma CopyIsFourSteps(s: Sys)
    requires s.power.bus.PbSolar?
    ensures var after := CopyStep(CopyStep(CopyStep(CopyStep(s))));
            && after.bus == PowerShown(s.power.d, s.inbox[POWER_CHILD].safe, s.bus)
            && after.power.bus == PbUnlock && after.power.d == s.power.d
  {
  }

  class PowerProcess {
    var solarWatts: int
    var batteryPct: int
    var inEclipse: bool
    var faultActive: bool
    var elapsed: nat
    // The reports handed to msgq_send, oldest first.
    var sent: seq<Alert>

    function Data(): PowerData
      reads this
    {
      PowerData(solarWatts, batteryPct, inEclipse, faultActive)
    }

    constructor ()
      ensures Data() == INITIAL_POWER && elapsed == 0 && sent == []
      ensures solarWatts == 110 && batteryPct == 100 && !inEclipse && !faultActive
    {
      solarWatts, batteryPct, inEclipse, faultActive := 110, 100, false, false;
      elapsed, sent := 0, [];
    }

    // solar_thread, for as many passes as there are values: the panel and the eclipse flag show the
    // last pass, and agree.
    method SolarThread(picks: seq<nat>)
      modifies `solarWatts, `inEclipse, `elapsed
      ensures elapsed == old(elapsed) + |picks|
      ensures picks != [] ==> inEclipse == EclipseWindow(elapsed) && (inEclipse <==> solarWatts == 0)
      ensures picks != [] ==> (inEclipse <==> 10 <= elapsed <= 20)
      ensures picks != [] && !inEclipse ==> solarWatts == picks[|picks| - 1] % 40 + 90
      ensures picks == [] ==> unchanged(`solarWatts, `inEclipse)
    {
      var i := 0;
      while i < |picks|
        invariant 0 <= i <= |picks| && elapsed == old(elapsed) + i
        invariant i > 0 ==> inEclipse == EclipseWindow(elapsed) && solarWatts == SolarReading(elapsed, picks[i - 1])
        invariant i == 0 ==> solarWatts == old(solarWatts) && inEclipse == old(inEclipse)
      {
        elapsed := elapsed + 1;
        if ECLIPSE_START <= elapsed && elapsed <= ECLIPSE_END {
          solarWatts := 0;
          inEclipse := true;
        } else {
          solarWatts := picks[i] % 40 + 90;
          inEclipse := false;
        }
        i := i + 1;
      }
    }

    method BatteryPassOnce(pick: nat)
      modifies `batteryPct, `faultActive, `sent
      ensures Data() == BatteryPass(old(Data()), pick).0
      ensures var alert := BatteryPass(old(Data()), pick).1;
              sent == old(sent) + (if alert.Some? then [alert.value] else [])
      ensures batteryPct == if inEclipse then Max(0, old(batteryPct) - (8 + pick % 8))
                            else 100 - Max(0, 100 - (old(batteryPct) + 3 + pick % 4))
      ensures if batteryPct <= 10 && !old(faultActive) then
                faultActive && sent == old(sent) + [Alert(POWER, CRITICAL, batteryPct, 10, BatteryCriticallyLow)]
              else if batteryPct <= 20 && !old(faultActive) then
                !faultActive && sent == old(sent) + [Alert(POWER, WARNING, batteryPct, 20, BatteryLow)]
              else if batteryPct > 20 && old(faultActive) then
                !faultActive && sent == old(sent) + [Alert(POWER, INFO, batteryPct, 20, BatteryRecovered)]
              else faultActive == old(faultActive) && sent == old(sent)
    {
      if inEclipse {
        var drain := pick % 8 + 8;
        batteryPct := batteryPct - drain;
        if batteryPct < 0 {
          batteryPct := 0;
        }
      } else {
        var charge := pick % 4 + 3;
        batteryPct := batteryPct + charge;
        if batteryPct > 100 {
          batteryPct := 100;
        }
      }
      var batt := batteryPct;
      if batt <= BATTERY_CRITICAL && !faultActive {
        faultActive := true;
        sent := sent + [Alert(POWER, CRITICAL, batt, BATTERY_CRITICAL, BatteryCriticallyLow)];
      } else if batt <= BATTERY_WARNING && !faultActive {
        sent := sent + [Alert(POWER, WARNING, batt, BATTERY_WARNING, BatteryLow)];
      } else if batt > BATTERY_WARNING && faultActive {
        faultActive := false;
        sent := sent + [Alert(POWER, INFO, batt, BATTERY_WARNING, BatteryRecovered)];
      }
    }

    // battery_thread, for as many passes as there are values.
    method BatteryThread(picks: seq<nat>)
      modifies `batteryPct, `faultActive, `sent
      ensures Data() == BatteryPasses(old(Data()), picks).0
      ensures sent == old(sent) + BatteryPasses(old(Data()), picks).1
    {
      var i := 0;
      while i < |picks|
        invariant 0 <= i <= |picks|
        invariant Data() == BatteryPasses(old(Data()), picks[..i]).0
        invariant sent == old(sent) + BatteryPasses(old(Data()), picks[..i]).1
      {
        assert picks[..i + 1][..i] == picks[..i];
        BatteryPassOnce(picks[i]);
        i := i + 1;
      }
      assert picks[..i] == picks;
    }

    // One pass of bus_writer_thread, with g_safe_mode as it reads it.
    method BusWriterPass(bus: TelemetryBus, safe: bool)
      modifies bus`solar, bus`battery, bus`safe
      ensures bus.View() == PowerShown(Data(), safe, old(bus.View()))
      ensures bus.solar == solarWatts && bus.battery == batteryPct && bus.safe == safe
    {
      bus.solar := solarWatts;
      bus.battery := batteryPct;
      bus.safe := safe;
    }
  }

  // ----- the battery's envelope -----

  function Max(a: int, b: int): int { if a < b then b else a }

  lemma {:induction false} PassesKeepEclipse(d: PowerData, picks: seq<nat>)
    ensures BatteryPasses(d, picks).0.inEclipse == d.inEclipse
  {
    if picks == [] {
    } else {
      PassesKeepEclipse(d, picks[..|picks| - 1]);
    }
  }

  // After k draining passes from b the level lies between max(0, b - 15k) and max(0, b - 8k).
  lemma {:induction false} DrainEnvelope(d: PowerData, picks: seq<nat>)
    requires d.inEclipse && 0 <= d.batteryPct
    ensures var b, k := BatteryPasses(d, picks).0.batteryPct, |picks|;
            Max(0, d.batteryPct - 15 * k) <= b <= Max(0, d.batteryPct - 8 * k)
  {
    if picks == [] {
    } else {
      DrainEnvelope(d, picks[..|picks| - 1]);
      PassesKeepEclipse(d, picks[..|picks| - 1]);
    }
  }

  // After k charging passes it lies between min(100, b + 3k) and min(100, b + 6k).
  lemma {:induction false} ChargeEnvelope(d: PowerData, picks: seq<nat>)
    requires !d.inEclipse && 0 <= d.batteryPct <= 100
    ensures var b, k := BatteryPasses(d, picks).0.batteryPct, |picks|;
            100 - Max(0, 100 - d.batteryPct - 3 * k) <= b <= 100 - Max(0, 100 - d.batteryPct - 6 * k)
  {
    if picks == [] {
    } else {
      ChargeEnvelope(d, picks[..|picks| - 1]);
      PassesKeepEclipse(d, picks[..|picks| - 1]);
    }
  }

  // While draining, the latch is set exactly once the level is critical, and nothing is sent exactly
  // while the level is above the warning threshold.
  lemma {:induction false} DrainReports(d: PowerData, picks: seq<nat>)
    requires d.inEclipse && d.batteryPct > BATTERY_WARNING && !d.faultActive
    ensures var (after, sent) := BatteryPasses(d, picks);
            && (after.faultActive <==> after.batteryPct <= BATTERY_CRITICAL)
            && (sent == [] <==> after.batteryPct > BATTERY_WARNING)
            && (after.faultActive <==> exists a :: a in sent && a.severity == CRITICAL)
  {
    if picks == [] {
    } else {
      DrainReports(d, picks[..|picks| - 1]);
      PassesKeepEclipse(d, picks[..|picks| - 1]);
    }
  }

  // From a full battery with the latch clear: an alert by the 10th drain, no CRITICAL before the 6th,
  // and a CRITICAL by the 12th.
  lemma FullBatteryTimeline(d: PowerData, picks: seq<nat>)
    requires d.inEclipse && d.batteryPct == 100 && !d.faultActive
    ensures |picks| >= 10 ==> BatteryPasses(d, picks).1 != []
    ensures |picks| < 6 ==> forall a <- BatteryPasses(d, picks).1 :: a.severity != CRITICAL
    ensures |picks| >= 12 ==> exists a :: a in BatteryPasses(d, picks).1 && a.severity == CRITICAL
  {
    DrainEnvelope(d, picks);
    DrainReports(d, picks);
  }

  // Seven charging passes always clear the latch, and 34 fill the battery.
  lemma RecoveryTimeline(d: PowerData, picks: seq<nat>)
    requires !d.inEclipse && 0 <= d.batteryPct <= 100
    ensures |picks| >= 7 ==>
              BatteryPasses(d, picks).0.batteryPct > BATTERY_WARNING && !BatteryPasses(d, picks).0.faultActive
    ensures |picks| >= 34 ==> BatteryPasses(d, picks).0.batteryPct == 100
  {
    ChargeEnvelope(d, picks);
    if picks != [] {
      ClearWhenNominal(d, picks);
    }
  }

  lemma ClearWhenNominal(d: PowerData, picks: seq<nat>)
    requires picks != []
    ensures var after := BatteryPasses(d, picks).0;
            after.batteryPct > BATTERY_WARNING ==> !after.faultActive
  {
  }
}
