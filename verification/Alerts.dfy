/** Alerts, thresholds and priorities: common.h and ipc/ipc.h. */
module Alerts {

  datatype Option<+T> = None | Some(value: T)

  // Every threshold the code compares with is a whole number, so whole numbers carry them exactly.
  const BATTERY_WARNING := 20
  const BATTERY_CRITICAL := 10
  const TEMP_WARNING := 85
  const TEMP_CRITICAL := 95
  const TEMP_FREEZE := 5
  const SIGNAL_WARNING := 30
  const SIGNAL_CRITICAL := 10
  const ECLIPSE_START := 10
  const ECLIPSE_END := 20
  const THERMAL_SPIKE := 30
  const MQ_MAX_MESSAGES := 10

  datatype Severity = CRITICAL | WARNING | INFO
  datatype Source = POWER | THERMAL | COMMS

  // The description passed to the *_send_fault helpers, one constructor for each call site.
  datatype Wording =
    | BatteryCriticallyLow | BatteryLow | BatteryRecovered
    | CpuOverheat | CpuElevated | CpuNormal | NearFreezing
    | LinkLost | SignalDegraded | LinkRestored | PeriodicSnapshot | GroundSnapshot

  datatype Alert = Alert(source: Source, severity: Severity, value: int, threshold: int, text: Wording)

  /** The message-queue priority that the *_send_fault helpers choose. */
  function Priority(a: Alert): nat {
    match a.severity
    case CRITICAL => 9
    case WARNING => 5
    case INFO => 1
  }

  // The reports of one severity, in the order in which they stand in s.
  function OfSeverity(s: seq<Alert>, v: Severity): seq<Alert> {
    if s == [] then []
    else (if s[0].severity == v then [s[0]] else []) + OfSeverity(s[1..], v)
  }

  lemma OfSeverityCons(a: Alert, s: seq<Alert>, v: Severity)
    ensures OfSeverity([a] + s, v) == (if a.severity == v then [a] else []) + OfSeverity(s, v)
  {
    assert ([a] + s)[1..] == s;
  }

  lemma Associate<T>(a: seq<T>, b: seq<T>, c: seq<T>)
    ensures (a + b) + c == a + (b + c)
  {
  }

  lemma {:induction false} OfSeverityAppend(s: seq<Alert>, t: seq<Alert>, v: Severity)
    ensures OfSeverity(s + t, v) == OfSeverity(s, v) + OfSeverity(t, v)
  {
    if s == [] {
      assert s + t == t;
    } else {
      var a, rest := s[0], s[1..];
      assert s == [a] + rest;
      Associate([a], rest, t);
      OfSeverityAppend(rest, t, v);
      OfSeverityCons(a, rest, v);
      OfSeverityCons(a, rest + t, v);
      Associate(if a.severity == v then [a] else [], OfSeverity(rest, v), OfSeverity(t, v));
    }
  }
}
