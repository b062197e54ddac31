/** The Docker detector (detectors/docker_detector.py): a local lookup through the Docker
    SDK, or over SSH a `docker inspect` with a `docker ps -a` existence fallback. */
module Docker {
  import opened PyStr
  import opened Base

  /** `container_name` from the configuration (None when absent). */
  function ContainerName(c: Config): Value {
    Get(c, "container_name", Null)
  }

  /** `expected_state`, "running" by default. */
  function ExpectedState(c: Config): Value {
    Get(c, "expected_state", Str("running"))
  }

  /** The first remote command: the container's state. */
  function InspectCommand(name: Value): (cmd: Command)
    ensures cmd.timeout == 10
  {
    Command("docker inspect --format='{{.State.Status}}' " + Show(name), 10)
  }

  /** The second remote command: does a container of exactly that name exist. */
  function ExistsCommand(name: Value): (cmd: Command)
    ensures cmd.timeout == 10
  {
    Command("docker ps -a --filter 'name=^" + Show(name) + "$' --format '{{.Names}}'", 10)
  }

  /** The state `docker inspect` printed: whitespace stripped, then single quotes, then
      lower-cased. */
  function NormalizeState(out: string): (s: string)
    ensures |s| <= |out|
    ensures Lower(s) == s
  {
    LowerIdempotent(StripChar(Strip(out), '\''));
    Lower(StripChar(Strip(out), '\''))
  }

  function ExistsMessage(name: Value, error: string): string {
    "Container " + Show(name) + " exists but inspect failed: " + error
  }

  function NotFoundMessage(name: Value): string {
    "Container " + Show(name) + " not found"
  }

  /** The two failure messages of the remote path cannot be confused. */
  lemma FailureMessagesDistinct(name: Value, error: string)
    ensures ExistsMessage(name, error) != NotFoundMessage(name)
  {
    var k := |"Container " + Show(name) + " "|;
    assert ExistsMessage(name, error)[k] == 'e';
    assert NotFoundMessage(name)[k] == 'n';
  }

  /** Compares an observed state with `expected_state.lower()`, which raises
      `AttributeError` when the expected state is not a string. `tags` is what a local
      lookup's `container.image.tags` yields; it is read only on the HEALTHY branch, where
      its exception propagates and its tags join the details. */
  function StateVerdict(d: Detector, name: Value, actual: string, expected: Value,
                        tags: Option<Result<seq<string>>>): (r: Result<CheckResult>)
    ensures r.Raised? <==> !expected.Str? || (actual == Lower(expected.s) && tags.Some? && tags.value.Raised?)
    ensures r.Ok? ==> Identifies(r.value, d, "docker") && r.value.status != Unknown
    ensures r.Ok? ==> (r.value.status == Healthy <==> actual == Lower(expected.s))
    ensures r.Ok? ==>
              && r.value.details.Some? && "server" in r.value.details.value
              && r.value.details.value["server"] == Scalar(Str(ServerName(d)))
              && "actual_state" in r.value.details.value
              && r.value.details.value["actual_state"] == Scalar(Str(actual))
    ensures r.Ok? && r.value.status == Healthy ==>
              && (tags.Some? ==>
                    "image" in r.value.details.value && r.value.details.value["image"] == Tags(tags.value.value))
              && (tags.None? ==> "image" !in r.value.details.value)
    ensures r.Ok? && r.value.status == Unhealthy ==>
              && "expected_state" in r.value.details.value
              && r.value.details.value["expected_state"] == Scalar(expected)
  {
    var server := ServerName(d);
    if !expected.Str? then Raised(NoAttribute(expected, "lower"))
    else if actual == Lower(expected.s) then
      var base := map["actual_state" := Scalar(Str(actual)), "server" := Scalar(Str(server))];
      var message := "Container " + Show(name) + " is " + actual;
      match tags
      case None => Ok(CheckResult(d.name, "docker", Healthy, message, server, Some(base)))
      case Some(Ok(t)) => Ok(CheckResult(d.name, "docker", Healthy, message, server, Some(base["image" := Tags(t)])))
      case Some(Raised(e)) => Raised(e)
    else
      Ok(CheckResult(d.name, "docker", Unhealthy,
                     "Container " + Show(name) + " is " + actual + ", expected " + Show(expected), server,
                     Some(map["actual_state" := Scalar(Str(actual)), "expected_state" := Scalar(expected),
                              "server" := Scalar(Str(server))])))
  }

  /** `_check_remote_docker`. */
  function Remote(d: Detector, env: Env, name: Value, expected: Value): (r: Result<CheckResult>)
    ensures r.Ok? ==> Identifies(r.value, d, "docker") && r.value.status != Unknown
  {
    var server := ServerName(d);
    match ExecuteCommand(d, env, InspectCommand(name))
    case Raised(e) => Raised(e)
    case Ok(out) =>
      if out.code == 0 then
        StateVerdict(d, name, NormalizeState(out.stdout), expected, None)
      else
        match ExecuteCommand(d, env, ExistsCommand(name))
        case Raised(e) => Raised(e)
        case Ok(ex) =>
          if ex.code == 0 && Str(Strip(ex.stdout)) == name then
            Ok(CheckResult(d.name, "docker", Unhealthy, ExistsMessage(name, out.stderr), server))
          else
            Ok(CheckResult(d.name, "docker", Unhealthy, NotFoundMessage(name), server))
  }

  /** When `docker inspect` exits 0, the printed state, normalised, is compared with the
      lower-cased expected state. */
  lemma RemoteInspectSucceeded(d: Detector, env: Env, name: Value, expected: Value)
    requires var i := ExecuteCommand(d, env, InspectCommand(name)); i.Ok? && i.value.code == 0
    ensures var i := ExecuteCommand(d, env, InspectCommand(name));
      var r := Remote(d, env, name, expected);
      && (r.Raised? <==> !expected.Str?)
      && (r.Ok? ==> (r.value.status == Healthy <==> NormalizeState(i.value.stdout) == Lower(expected.s)))
      && (r.Ok? ==> r.value.details.Some? && "actual_state" in r.value.details.value
                    && r.value.details.value["actual_state"] == Scalar(Str(NormalizeState(i.value.stdout))))
  {
  }

  /** When `docker inspect` fails, the existence probe decides between two UNHEALTHY
      verdicts without details: "exists but inspect failed" when the probe exits 0 and
      prints exactly the container name, "not found" otherwise. */
  lemma RemoteInspectFailed(d: Detector, env: Env, name: Value, expected: Value)
    requires var i := ExecuteCommand(d, env, InspectCommand(name)); i.Ok? && i.value.code != 0
    requires ExecuteCommand(d, env, ExistsCommand(name)).Ok?
    ensures var i := ExecuteCommand(d, env, InspectCommand(name));
      var x := ExecuteCommand(d, env, ExistsCommand(name));
      var r := Remote(d, env, name, expected);
      && r.Ok? && r.value.status == Unhealthy && r.value.details == None
      && (r.value.message == ExistsMessage(name, i.value.stderr) <==>
            x.value.code == 0 && PyEq(Str(Strip(x.value.stdout)), name))
      && (r.value.message != ExistsMessage(name, i.value.stderr) ==> r.value.message == NotFoundMessage(name))
  {
    FailureMessagesDistinct(name, ExecuteCommand(d, env, InspectCommand(name)).value.stderr);
  }

  /** A remote command that raises (a lost session, a failed exec) ends the remote path
      with that exception, whether it is the inspect or the existence probe; `check` then
      reports UNKNOWN. */
  lemma RemoteCommandRaised(d: Detector, env: Env)
    requires d.IsRemote()
    requires var name := ContainerName(d.config);
      var i := ExecuteCommand(d, env, InspectCommand(name));
      i.Raised? || (i.value.code != 0 && ExecuteCommand(d, env, ExistsCommand(name)).Raised?)
    ensures var name := ContainerName(d.config);
      var i := ExecuteCommand(d, env, InspectCommand(name));
      var e := if i.Raised? then i.error else ExecuteCommand(d, env, ExistsCommand(name)).error;
      Remote(d, env, name, ExpectedState(d.config)) == Raised(e)
    ensures Check(d, env).status == Unknown && Check(d, env).details == None
  {
  }

  /** `_check_local_docker`: the SDK lookup (client creation included) and a
      case-insensitive comparison; a HEALTHY verdict lists the image tags, whose lookup
      can raise only there. */
  function Local(d: Detector, env: Env, name: Value, expected: Value): (r: Result<CheckResult>)
    ensures r.Ok? ==> Identifies(r.value, d, "docker") && r.value.status != Unknown
    ensures env.docker(name).Raised? ==> r.Raised?
    ensures env.docker(name).Ok? && env.docker(name).value.imageTags.Raised? && expected.Str? ==>
              (r.Raised? <==> Lower(env.docker(name).value.status) == Lower(expected.s))
    ensures env.docker(name).Ok? ==>
              r == StateVerdict(d, name, Lower(env.docker(name).value.status), expected,
                                Some(env.docker(name).value.imageTags))
  {
    match env.docker(name)
    case Raised(e) => Raised(e)
    case Ok(c) => StateVerdict(d, name, Lower(c.status), expected, Some(c.imageTags))
  }

  /** The `try` block of `check`: the remote or the local path. */
  function Body(d: Detector, env: Env): (r: Result<CheckResult>)
    ensures r.Ok? ==> Identifies(r.value, d, "docker") && r.value.status != Unknown
  {
    var name := ContainerName(d.config);
    var expected := ExpectedState(d.config);
    if d.IsRemote() then Remote(d, env, name, expected) else Local(d, env, name, expected)
  }

  /** `DockerDetector.check`: never raises; an exception on either path is UNKNOWN. */
  function Check(d: Detector, env: Env): (r: CheckResult)
    ensures Identifies(r, d, "docker")
    ensures r.status == Unknown <==> Body(d, env).Raised?
    ensures Body(d, env).Ok? ==> r == Body(d, env).value
  {
    Guard(d, "docker", "Error checking container " + Show(ContainerName(d.config)), Body(d, env))
  }

  /** The remote path asks at most two questions: the inspect command, and the existence
      command only when inspect did not succeed. Two environments that answer those alike
      give the same verdict. */
  lemma RemoteAsksAtMostTwo(d: Detector, e1: Env, e2: Env)
    requires d.IsRemote()
    requires var i := InspectCommand(ContainerName(d.config));
      ExecuteCommand(d, e1, i) == ExecuteCommand(d, e2, i)
    requires var i := ExecuteCommand(d, e1, InspectCommand(ContainerName(d.config)));
      !(i.Ok? && i.value.code == 0) ==>
        ExecuteCommand(d, e1, ExistsCommand(ContainerName(d.config)))
          == ExecuteCommand(d, e2, ExistsCommand(ContainerName(d.config)))
    ensures Check(d, e1) == Check(d, e2)
  {
    RemoteBodyAgrees(d, e1, e2);
  }

  /** The `try` block of a remote check agrees on two such environments. */
  lemma RemoteBodyAgrees(d: Detector, e1: Env, e2: Env)
    requires d.IsRemote()
    requires var i := InspectCommand(ContainerName(d.config));
      ExecuteCommand(d, e1, i) == ExecuteCommand(d, e2, i)
    requires var i := ExecuteCommand(d, e1, InspectCommand(ContainerName(d.config)));
      !(i.Ok? && i.value.code == 0) ==>
        ExecuteCommand(d, e1, ExistsCommand(ContainerName(d.config)))
          == ExecuteCommand(d, e2, ExistsCommand(ContainerName(d.config)))
    ensures Body(d, e1) == Body(d, e2)
  {
    var name, expected := ContainerName(d.config), ExpectedState(d.config);
    var i1 := ExecuteCommand(d, e1, InspectCommand(name));
    var i2 := ExecuteCommand(d, e2, InspectCommand(name));
    assert i1 == i2;
    if i1.Ok? && i1.value.code != 0 {
      var x1 := ExecuteCommand(d, e1, ExistsCommand(name));
      var x2 := ExecuteCommand(d, e2, ExistsCommand(name));
      assert x1 == x2;
    }
    assert Remote(d, e1, name, expected) == Remote(d, e2, name, expected);
  }

  /** Two expected states that agree up to case give the same outcome on the remote path,
      for detectors that differ only in their configuration. */
  lemma RemoteCase(d: Detector, d': Detector, env: Env, name: Value, x: string, y: string)
    requires d'.name == d.name && d'.serverConfig == d.serverConfig && Lower(x) == Lower(y)
    ensures Remote(d', env, name, Str(y)).Raised? == Remote(d, env, name, Str(x)).Raised?
    ensures Remote(d, env, name, Str(x)).Ok? ==>
              Remote(d', env, name, Str(y)).value.status == Remote(d, env, name, Str(x)).value.status
  {
    var i := ExecuteCommand(d, env, InspectCommand(name));
    if i.Ok? && i.value.code == 0 {
      InspectedCase(d, d', env, name, x, y);
    } else {
      FallbackCase(d, d', env, name, x, y);
    }
  }

  /** After a successful inspect both verdicts compare the same state. */
  lemma InspectedCase(d: Detector, d': Detector, env: Env, name: Value, x: string, y: string)
    requires d'.name == d.name && d'.serverConfig == d.serverConfig && Lower(x) == Lower(y)
    requires var i := ExecuteCommand(d, env, InspectCommand(name)); i.Ok? && i.value.code == 0
    ensures Remote(d', env, name, Str(y)).Ok? && Remote(d, env, name, Str(x)).Ok?
    ensures Remote(d', env, name, Str(y)).value.status == Remote(d, env, name, Str(x)).value.status
  {
    assert ExecuteCommand(d', env, InspectCommand(name)) == ExecuteCommand(d, env, InspectCommand(name));
  }

  /** After a failed inspect the expected state plays no part. */
  lemma FallbackCase(d: Detector, d': Detector, env: Env, name: Value, x: string, y: string)
    requires d'.name == d.name && d'.serverConfig == d.serverConfig
    requires var i := ExecuteCommand(d, env, InspectCommand(name)); !(i.Ok? && i.value.code == 0)
    ensures Remote(d', env, name, Str(y)) == Remote(d, env, name, Str(x))
  {
    assert ExecuteCommand(d', env, InspectCommand(name)) == ExecuteCommand(d, env, InspectCommand(name));
    assert ExecuteCommand(d', env, ExistsCommand(name)) == ExecuteCommand(d, env, ExistsCommand(name));
  }

  /** The same on the local path. */
  lemma LocalCase(d: Detector, d': Detector, env: Env, name: Value, x: string, y: string)
    requires d'.name == d.name && d'.serverConfig == d.serverConfig && Lower(x) == Lower(y)
    ensures Local(d', env, name, Str(y)).Raised? == Local(d, env, name, Str(x)).Raised?
    ensures Local(d, env, name, Str(x)).Ok? ==>
              Local(d', env, name, Str(y)).value.status == Local(d, env, name, Str(x)).value.status
  {
  }

  /** The expected state is compared case-insensitively: changing only the case of its
      letters never changes the status, locally or remotely. */
  lemma ExpectedStateCaseInsensitive(d: Detector, env: Env, other: string)
    requires ExpectedState(d.config).Str? && Lower(other) == Lower(ExpectedState(d.config).s)
    ensures var d' := d.(config := d.config["expected_state" := Str(other)]);
      Check(d', env).status == Check(d, env).status
  {
    var d' := d.(config := d.config["expected_state" := Str(other)]);
    var name := ContainerName(d.config);
    assert ContainerName(d'.config) == name;
    assert ExpectedState(d'.config) == Str(other);
    if d.IsRemote() {
      RemoteCase(d, d', env, name, ExpectedState(d.config).s, other);
    } else {
      LocalCase(d, d', env, name, ExpectedState(d.config).s, other);
    }
  }
}
