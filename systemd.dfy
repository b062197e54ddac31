/** The systemd detector (detectors/systemd_detector.py): one `systemctl is-active`
    command, compared with the expected unit state. */
module Systemd {
  import opened PyStr
  import opened Base

  /** `service_name` from the configuration (None when absent). */
  function UnitName(c: Config): Value {
    Get(c, "service_name", Null)
  }

  /** `expected_status`, "active" by default. */
  function ExpectedStatus(c: Config): Value {
    Get(c, "expected_status", Str("active"))
  }

  /** The one command the detector issues. */
  function StatusCommand(c: Config): (cmd: Command)
    ensures cmd.timeout == 10
    ensures cmd.line == "systemctl is-active " + Show(UnitName(c))
  {
    Command("systemctl is-active " + Show(UnitName(c)), 10)
  }

  /** The details of an UNHEALTHY verdict on a command that ran. */
  function MismatchDetails(actual: string, expected: Value, error: string, server: string): (m: Details)
    ensures m.Keys == {"actual_status", "expected_status", "error", "server"}
    ensures m["actual_status"] == Scalar(Str(actual)) && m["expected_status"] == Scalar(expected)
    ensures m["error"] == Scalar(Str(error)) && m["server"] == Scalar(Str(server))
  {
    map["actual_status" := Scalar(Str(actual)), "expected_status" := Scalar(expected),
        "error" := Scalar(Str(error)), "server" := Scalar(Str(server))]
  }

  /** `SystemdDetector.check`. It never raises: every outcome of the command, including
      an exception, is classified. */
  function Check(d: Detector, env: Env): (r: CheckResult)
    ensures Identifies(r, d, "systemd")
  {
    Classify(d, ExecuteCommand(d, env, StatusCommand(d.config)))
  }

  /** The body of `check` once `execute_command` has answered `o`. */
  function Classify(d: Detector, o: Result<Output>): (r: CheckResult)
    ensures Identifies(r, d, "systemd")
    ensures r.status == Healthy <==>
              o.Ok? && o.value.code == 0 && PyEq(Str(Strip(o.value.stdout)), ExpectedStatus(d.config))
    ensures r.status == Unknown <==> o.Raised? && o.error.kind != TimeoutError
    ensures o.Raised? ==> r.details == None
    ensures o.Ok? && r.status != Healthy ==>
              r.status == Unhealthy && r.details == Some(MismatchDetails(Strip(o.value.stdout),
                ExpectedStatus(d.config), o.value.stderr, ServerName(d)))
  {
    var unit := Show(UnitName(d.config));
    var expected := ExpectedStatus(d.config);
    var server := ServerName(d);
    match o
    case Ok(out) =>
      var actual := Strip(out.stdout);
      if out.code == 0 && Str(actual) == expected then
        CheckResult(d.name, "systemd", Healthy, "Service " + unit + " is " + actual, server,
                    Some(map["actual_status" := Scalar(Str(actual)), "server" := Scalar(Str(server))]))
      else
        CheckResult(d.name, "systemd", Unhealthy,
                    "Service " + unit + " is " + actual + ", expected " + Show(expected), server,
                    Some(MismatchDetails(actual, expected, out.stderr, server)))
    case Raised(e) =>
      if e.kind == TimeoutError then
        CheckResult(d.name, "systemd", Unhealthy, "Timeout checking systemd service " + unit, server)
      else
        CheckResult(d.name, "systemd", Unknown, "Error checking systemd service " + unit + ": " + e.text, server)
  }

  /** The verdict depends on the answer to `systemctl is-active <unit>` alone. */
  lemma CheckDependsOnStatusCommand(d: Detector, e1: Env, e2: Env)
    requires ExecuteCommand(d, e1, StatusCommand(d.config)) == ExecuteCommand(d, e2, StatusCommand(d.config))
    ensures Check(d, e1) == Check(d, e2)
  {
  }

  /** Exit status and text must both agree: exit 0 with another state, and a matching state
      with a non-zero exit, are both UNHEALTHY. */
  lemma BothConditionsNeeded(d: Detector, env: Env, out: Output)
    requires ExecuteCommand(d, env, StatusCommand(d.config)) == Ok(out)
    requires ExpectedStatus(d.config) == Str(Strip(out.stdout)) <==> out.code != 0
    ensures Check(d, env).status == Unhealthy
  {
  }

  /** A command timeout is UNHEALTHY, not UNKNOWN, and carries no details. */
  lemma TimeoutIsUnhealthy(d: Detector, env: Env, text: string)
    requires ExecuteCommand(d, env, StatusCommand(d.config)) == Raised(PyException(TimeoutError, text))
    ensures Check(d, env).status == Unhealthy && Check(d, env).details == None
  {
  }
}
