/** The supervisor detector (detectors/supervisor_detector.py): over SSH a
    `supervisorctl status` whose output is scanned line by line, locally the XML-RPC
    `getProcessInfo` call. */
module Supervisor {
  import opened PyStr
  import opened Base

  /** `process_name` from the configuration (None when absent). */
  function ProcessName(c: Config): Value {
    Get(c, "process_name", Null)
  }

  /** `supervisor_url`, the default unix socket otherwise. */
  function SupervisorUrl(c: Config): Value {
    Get(c, "supervisor_url", Str("unix:///var/run/supervisor.sock"))
  }

  /** `expected_state`, "RUNNING" by default. */
  function ExpectedState(c: Config): Value {
    Get(c, "expected_state", Str("RUNNING"))
  }

  /** The one remote command. */
  function StatusCommand(name: Value): (cmd: Command)
    ensures cmd.timeout == 10
  {
    Command("supervisorctl status " + Show(name), 10)
  }

  /** The lines scanned: the stripped output split at newlines. */
  function Lines(out: string): (lines: seq<string>)
    ensures |lines| >= 1
  {
    SplitOn(Strip(out), '\n')
  }

  /** A line that decides the verdict: it starts with the process name (a prefix test, so
      "web2 ..." qualifies for "web") and splits into at least two words. */
  predicate Qualifies(line: string, name: string) {
    name <= line && |Words(line)| >= 2
  }

  /** The `for` loop over the lines: the second word of the first qualifying line, None
      when no line qualifies. `startswith` raises `TypeError` on the first line when the
      process name is not a string. */
  function Scan(lines: seq<string>, name: Value): Result<Option<string>> {
    if lines == [] then Ok(None)
    else if !name.Str? then
      Raised(PyException(TypeError, "startswith first arg must be str or a tuple of str, not " + TypeName(name)))
    else if Qualifies(lines[0], name.s) then Ok(Some(Words(lines[0])[1]))
    else Scan(lines[1..], name)
  }

  /** With a string name the scan never raises; it reports the second word of the first
      qualifying line, and nothing exactly when no line qualifies. */
  lemma ScanFindsFirst(lines: seq<string>, name: string)
    ensures Scan(lines, Str(name)).Ok?
    ensures Scan(lines, Str(name)).value.None? <==> forall i :: 0 <= i < |lines| ==> !Qualifies(lines[i], name)
    ensures Scan(lines, Str(name)).value.Some? ==>
              exists i :: 0 <= i < |lines| && Qualifies(lines[i], name)
                          && Scan(lines, Str(name)).value.value == Words(lines[i])[1]
                          && forall j :: 0 <= j < i ==> !Qualifies(lines[j], name)
  {
    ScanNone(lines, name);
    if Scan(lines, Str(name)).value.Some? {
      ScanSome(lines, name);
    }
  }

  /** The scan finds nothing exactly when no line qualifies. */
  lemma {:induction false} ScanNone(lines: seq<string>, name: string)
    ensures Scan(lines, Str(name)).Ok?
    ensures Scan(lines, Str(name)).value.None? <==> forall i :: 0 <= i < |lines| ==> !Qualifies(lines[i], name)
  {
    if lines != [] && !Qualifies(lines[0], name) {
      ScanNone(lines[1..], name);
      assert forall i :: 1 <= i < |lines| ==> lines[i] == lines[1..][i - 1];
    }
  }

  /** What the scan finds comes from the first qualifying line. */
  lemma {:induction false} ScanSome(lines: seq<string>, name: string)
    requires Scan(lines, Str(name)).Ok? && Scan(lines, Str(name)).value.Some?
    ensures exists i :: 0 <= i < |lines| && Qualifies(lines[i], name)
                        && Scan(lines, Str(name)).value.value == Words(lines[i])[1]
                        && forall j :: 0 <= j < i ==> !Qualifies(lines[j], name)
  {
    if !Qualifies(lines[0], name) {
      ScanSome(lines[1..], name);
      var r := Scan(lines, Str(name));
      var i :| 0 <= i < |lines[1..]| && Qualifies(lines[1..][i], name)
               && r.value.value == Words(lines[1..][i])[1]
               && forall j :: 0 <= j < i ==> !Qualifies(lines[1..][j], name);
      assert lines[i + 1] == lines[1..][i];
      assert forall j :: 1 <= j < i + 1 ==> lines[j] == lines[1..][j - 1];
    } else {
      assert Qualifies(lines[0], name);
    }
  }

  /** A name that is not a string makes the scan raise, whatever was printed. */
  lemma ScanRejectsNonString(out: string, name: Value)
    requires !name.Str?
    ensures Scan(Lines(out), name).Raised? && Scan(Lines(out), name).error.kind == TypeError
  {
  }

  /** Matching is by prefix: a line that starts with the name and continues, such as the
      line of process "web2" in a check of "web", decides the check. */
  lemma PrefixMatch(name: string, more: string, state: string)
    requires IsWord(name + more) && IsWord(state)
    ensures Scan([name + more + " " + state], Str(name)) == Ok(Some(state))
  {
    WordsOfTwo(name + more, state);
    assert name <= name + more + " " + state;
  }

  /** The verdict on the state word of the decisive line: both sides upper-cased, so the
      comparison ignores case; `expected_state.upper()` raises when it is not a string. */
  function StateVerdict(d: Detector, name: Value, word: string, expected: Value): (r: Result<CheckResult>)
    ensures r.Raised? <==> !expected.Str?
    ensures r.Ok? ==> Identifies(r.value, d, "supervisor") && r.value.status != Unknown
    ensures r.Ok? ==> (r.value.status == Healthy <==> Upper(word) == Upper(expected.s))
    ensures r.Ok? ==>
              && r.value.details.Some? && "actual_state" in r.value.details.value
              && r.value.details.value["actual_state"] == Scalar(Str(Upper(word)))
              && "server" in r.value.details.value && r.value.details.value["server"] == Scalar(Str(ServerName(d)))
    ensures r.Ok? && r.value.status == Unhealthy ==>
              "expected_state" in r.value.details.value
              && r.value.details.value["expected_state"] == Scalar(expected)
  {
    var server := ServerName(d);
    var actual := Upper(word);
    if !expected.Str? then Raised(NoAttribute(expected, "upper"))
    else if actual == Upper(expected.s) then
      Ok(CheckResult(d.name, "supervisor", Healthy, "Supervisor process " + Show(name) + " is " + actual, server,
                     Some(map["actual_state" := Scalar(Str(actual)), "server" := Scalar(Str(server))])))
    else
      Ok(CheckResult(d.name, "supervisor", Unhealthy,
                     "Supervisor process " + Show(name) + " is " + actual + ", expected " + Show(expected), server,
                     Some(map["actual_state" := Scalar(Str(actual)), "expected_state" := Scalar(expected),
                              "server" := Scalar(Str(server))])))
  }

  function NotFoundMessage(name: Value): string {
    "Supervisor process " + Show(name) + " not found in output"
  }

  function FailedMessage(name: Value, error: string): string {
    "Failed to check supervisor process " + Show(name) + ": " + error
  }

  /** `_check_remote_supervisor`. */
  function Remote(d: Detector, env: Env, name: Value, expected: Value): (r: Result<CheckResult>)
    ensures r.Ok? ==> Identifies(r.value, d, "supervisor") && r.value.status != Unknown
  {
    var server := ServerName(d);
    match ExecuteCommand(d, env, StatusCommand(name))
    case Raised(e) => Raised(e)
    case Ok(out) =>
      if out.code != 0 then
        Ok(CheckResult(d.name, "supervisor", Unhealthy, FailedMessage(name, out.stderr), server))
      else
        match Scan(Lines(out.stdout), name)
        case Raised(e) => Raised(e)
        case Ok(None) => Ok(CheckResult(d.name, "supervisor", Unhealthy, NotFoundMessage(name), server))
        case Ok(Some(word)) => StateVerdict(d, name, word, expected)
  }

  /** A non-zero exit of `supervisorctl` is UNHEALTHY "Failed to check supervisor process",
      with the command's standard error and no details. */
  lemma RemoteCommandFailed(d: Detector, env: Env, name: Value, expected: Value)
    requires var o := ExecuteCommand(d, env, StatusCommand(name)); o.Ok? && o.value.code != 0
    ensures var o := ExecuteCommand(d, env, StatusCommand(name));
      Remote(d, env, name, expected)
        == Ok(CheckResult(d.name, "supervisor", Unhealthy, FailedMessage(name, o.value.stderr), ServerName(d)))
  {
  }

  /** After a zero exit, the first qualifying line decides: HEALTHY exactly when its second
      word equals the expected state up to case, and UNHEALTHY "not found in output",
      without details, when no line qualifies. */
  lemma RemoteFirstLineDecides(d: Detector, env: Env, name: string, expected: string)
    requires var o := ExecuteCommand(d, env, StatusCommand(Str(name))); o.Ok? && o.value.code == 0
    ensures var lines := Lines(ExecuteCommand(d, env, StatusCommand(Str(name))).value.stdout);
      var r := Remote(d, env, Str(name), Str(expected));
      && r.Ok?
      && ((forall i :: 0 <= i < |lines| ==> !Qualifies(lines[i], name)) ==>
            r.value.status == Unhealthy && r.value.message == NotFoundMessage(Str(name))
            && r.value.details == None)
      && (forall i :: 0 <= i < |lines| && Qualifies(lines[i], name)
                       && (forall j :: 0 <= j < i ==> !Qualifies(lines[j], name)) ==>
            (r.value.status == Healthy <==> Upper(Words(lines[i])[1]) == Upper(expected)))
  {
    var lines := Lines(ExecuteCommand(d, env, StatusCommand(Str(name))).value.stdout);
    ScanFindsFirst(lines, name);
    var s := Scan(lines, Str(name));
    if s.value.Some? {
      var k :| 0 <= k < |lines| && Qualifies(lines[k], name) && s.value.value == Words(lines[k])[1]
               && forall j :: 0 <= j < k ==> !Qualifies(lines[j], name);
      forall i | 0 <= i < |lines| && Qualifies(lines[i], name)
                 && (forall j :: 0 <= j < i ==> !Qualifies(lines[j], name))
        ensures i == k
      {
      }
    }
  }

  /** `_check_local_supervisor`: the process's `statename` is compared with the expected
      state by Python equality, so case matters; a HEALTHY verdict lists the `pid`. */
  function Local(d: Detector, env: Env, name: Value, url: Value, expected: Value): (r: Result<CheckResult>)
    ensures r.Raised? <==> env.supervisor(url, name).Raised?
    ensures r.Ok? ==> Identifies(r.value, d, "supervisor") && r.value.status != Unknown
    ensures r.Ok? ==> (r.value.status == Healthy <==> PyEq(env.supervisor(url, name).value.statename, expected))
    ensures r.Ok? ==>
              && r.value.details.Some? && "actual_state" in r.value.details.value
              && r.value.details.value["actual_state"] == Scalar(env.supervisor(url, name).value.statename)
              && "server" in r.value.details.value && r.value.details.value["server"] == Scalar(Str(ServerName(d)))
    ensures r.Ok? && r.value.status == Healthy ==>
              "pid" in r.value.details.value
              && r.value.details.value["pid"] == Scalar(env.supervisor(url, name).value.pid)
    ensures r.Ok? && r.value.status == Unhealthy ==>
              "expected_state" in r.value.details.value
              && r.value.details.value["expected_state"] == Scalar(expected)
  {
    var server := ServerName(d);
    match env.supervisor(url, name)
    case Raised(e) => Raised(e)
    case Ok(info) =>
      var actual := info.statename;
      if PyEq(actual, expected) then
        Ok(CheckResult(d.name, "supervisor", Healthy, "Supervisor process " + Show(name) + " is " + Show(actual),
                       server, Some(map["actual_state" := Scalar(actual), "pid" := Scalar(info.pid),
                                        "server" := Scalar(Str(server))])))
      else
        Ok(CheckResult(d.name, "supervisor", Unhealthy,
                       "Supervisor process " + Show(name) + " is " + Show(actual) + ", expected " + Show(expected),
                       server, Some(map["actual_state" := Scalar(actual), "expected_state" := Scalar(expected),
                                        "server" := Scalar(Str(server))])))
  }

  /** The `try` block of `check`. */
  function Body(d: Detector, env: Env): (r: Result<CheckResult>)
    ensures r.Ok? ==> Identifies(r.value, d, "supervisor") && r.value.status != Unknown
  {
    var name := ProcessName(d.config);
    var expected := ExpectedState(d.config);
    if d.IsRemote() then Remote(d, env, name, expected)
    else Local(d, env, name, SupervisorUrl(d.config), expected)
  }

  /** `SupervisorDetector.check`: never raises; an exception on either path is UNKNOWN. */
  function Check(d: Detector, env: Env): (r: CheckResult)
    ensures Identifies(r, d, "supervisor")
    ensures r.status == Unknown <==> Body(d, env).Raised?
    ensures Body(d, env).Ok? ==> r == Body(d, env).value
  {
    Guard(d, "supervisor", "Error checking supervisor process " + Show(ProcessName(d.config)), Body(d, env))
  }

  /** The remote comparison ignores case while the local one does not: the same state
      word "running" against the default "RUNNING" is HEALTHY over SSH and UNHEALTHY
      through XML-RPC. */
  lemma RemoteIgnoresCaseLocalDoesNot(d: Detector, env: Env, name: Value)
    ensures StateVerdict(d, name, "running", Str("RUNNING")).value.status == Healthy
    ensures env.supervisor(Str("x"), name) == Ok(ProcessInfo(Str("running"), Null)) ==>
              Local(d, env, name, Str("x"), Str("RUNNING")).value.status == Unhealthy
  {
    assert Upper("running") == "RUNNING";
    assert Upper("RUNNING") == "RUNNING";
  }
}
