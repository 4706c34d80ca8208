/** The simulated ground link: comms/comms_threads.c. */
module CommsLink {
  import opened Alerts
  import opened Latch

  datatype CommsData = CommsData(signal: int, faultActive: bool)

  const INITIAL_COMMS := CommsData(90, false)

  datatype Command = STATUS | SAFE_MODE | SNAPSHOT | RESET_ADCS | UNKNOWN

  function SignalReading(dropout: bool, pick: nat): int {
    if dropout then pick % 20 + 5 else pick % 40 + 60
  }

  function SignalBand(sig: int): Band {
    if sig <= SIGNAL_CRITICAL then Severe
    else if sig <= SIGNAL_WARNING then Marginal
    else Nominal
  }

  function SignalAlert(severity: Severity, sig: int): Alert {
    match severity
    case CRITICAL => Alert(COMMS, CRITICAL, sig, SIGNAL_CRITICAL, LinkLost)
    case WARNING => Alert(COMMS, WARNING, sig, SIGNAL_WARNING, SignalDegraded)
    case INFO => Alert(COMMS, INFO, sig, SIGNAL_WARNING, LinkRestored)
  }
}
