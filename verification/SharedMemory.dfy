/** The telemetry bus as the processes map it: ipc/shm_manager.c. */
module SharedMemory {
  import opened Spacecraft

  class TelemetryBus {
    var battery: int
    var solar: int
    var cpu: int
    var zoneBattery: int
    var zoneAntenna: int
    var zoneBody: int
    var signal: int
    var safe: bool

    function View(): Bus
      reads this
    {
      Bus(battery, solar, cpu, zoneBattery, zoneAntenna, zoneBody, signal, safe)
    }

    // shm_create()
    constructor Create()
      ensures View() == Init().bus
      ensures battery == 100 && solar == 110 && cpu == 30 && zoneBattery == 20 && zoneAntenna == 25 && zoneBody == 22
      ensures signal == 90 && !safe
    {
      battery, solar, signal, safe := 100, 110, 90, false;
      cpu, zoneBattery, zoneAntenna, zoneBody := 30, 20, 25, 22;
    }
  }
}
