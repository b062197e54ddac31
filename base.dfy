/** The detector contract shared by every service kind (detectors/base.py): the three
    statuses, the result record, the exception a probe can raise, and the dispatch of a
    command to a local subprocess or to a remote session. The subprocess, the remote
    session and the service-specific client libraries are oracles collected in `Env`. */
module Base {
  import opened PyStr

  datatype Option<+T> = None | Some(value: T) {
    function GetOr(default: T): T {
      if Some? then value else default
    }
  }

  /** A scalar of the YAML configuration, as Python holds it. */
  datatype Value = Null | Bool(b: bool) | Int(i: int) | Str(s: string)

  /** `str(v)`, which is also what an f-string inserts. */
  function Show(v: Value): string {
    match v
    case Null => "None"
    case Bool(b) => if b then "True" else "False"
    case Int(i) => ShowInt(i)
    case Str(s) => s
  }

  /** `str()` of an optional string: the text, or "None". */
  function ShowName(o: Option<string>): string {
    if o.Some? then o.value else "None"
  }

  /** The Python type name of a scalar, as error messages print it. */
  function TypeName(v: Value): string {
    match v
    case Null => "NoneType"
    case Bool(_) => "bool"
    case Int(_) => "int"
    case Str(_) => "str"
  }

  function NumericValue(v: Value): int
    requires v.Bool? || v.Int?
  {
    if v.Int? then v.i else if v.b then 1 else 0
  }

  /** Python's `==` on two scalars: booleans and integers compare as numbers
      (`True == 1`), every other pair of different types is unequal. */
  predicate PyEq(a: Value, b: Value) {
    if (a.Bool? || a.Int?) && (b.Bool? || b.Int?) then NumericValue(a) == NumericValue(b)
    else a == b
  }

  /** A configuration dictionary. */
  type Config = map<string, Value>

  /** `config.get(key, default)`. */
  function Get(c: Config, key: string, default: Value): Value {
    if key in c then c[key] else default
  }

  /** The exception classes the core raises or reacts to. */
  datatype ExcKind = TimeoutError | RuntimeError | ValueError | KeyError | TypeError | AttributeError
                   | OtherError(className: string)

  /** A raised exception; `text` is what `str(e)` gives. */
  datatype PyException = PyException(kind: ExcKind, text: string)

  /** A value, or the exception raised instead of returning it. */
  datatype Result<+T> = Ok(value: T) | Raised(error: PyException)

  /** `AttributeError` raised by calling a string method on a value that is not a string. */
  function NoAttribute(v: Value, attr: string): PyException {
    PyException(AttributeError, "'" + TypeName(v) + "' object has no attribute '" + attr + "'")
  }

  /** `ServiceStatus`: exactly three values. */
  datatype ServiceStatus = Healthy | Unhealthy | Unknown {
    /** The enum's `.value`. */
    function Text(): (t: string)
      ensures t in {"healthy", "unhealthy", "unknown"}
    {
      match this
      case Healthy => "healthy"
      case Unhealthy => "unhealthy"
      case Unknown => "unknown"
    }
  }

  /** Distinct statuses have distinct `.value`s. */
  lemma StatusTextInjective(a: ServiceStatus, b: ServiceStatus)
    requires a.Text() == b.Text()
    ensures a == b
  {
  }

  /** A value of a result's details dictionary. */
  datatype Detail = Scalar(v: Value) | Tags(tags: seq<string>) | Seconds(elapsed: real)

  type Details = map<string, Detail>

  /** `CheckResult`; `server` defaults to "local" and `details` to None. `serviceName` is
      None when the service description had no name. */
  datatype CheckResult = CheckResult(serviceName: Option<string>, serviceType: string,
                                     status: ServiceStatus, message: string,
                                     server: string := "local", details: Option<Details> := None)

  /** A host entry of the SSH server map, passed to detectors verbatim. */
  datatype Host = Host(name: Option<string>, host: Option<string>, port: Option<int>,
                       username: Option<string>, keyFile: Option<string>,
                       password: Option<string>, timeout: Option<int>)

  /** A command and the timeout, in seconds, it is run with. */
  datatype Command = Command(line: string, timeout: int)

  /** Exit code, standard output and standard error of a finished command. */
  datatype Output = Output(code: int, stdout: string, stderr: string)

  /** What `subprocess.run` does with a command. */
  datatype ProcessOutcome = Completed(code: int, stdout: string, stderr: string)
                          | Expired
                          | Crashed(reason: string)

  /** What happens to a command sent over the pooled SSH session for a host: the session
      cannot be obtained (the pool's exception propagates), running or reading fails, or
      the command finishes with undecoded output. */
  datatype RemoteOutcome = NoSession(error: PyException)
                         | ExecFailed(reason: string)
                         | Executed(code: int, stdout: string, stderr: string)

  /** What the Docker SDK returns for `containers.get(name)`: the status, and what the
      later `container.image.tags` lookup yields, which may raise on its own. */
  datatype Container = Container(status: string, imageTags: Result<seq<string>>)

  /** What supervisor's XML-RPC `getProcessInfo` returns: its `statename` and `pid`. */
  datatype ProcessInfo = ProcessInfo(statename: Value, pid: Value)

  /** The arguments of `requests.request`. */
  datatype HttpRequest = HttpRequest(httpMethod: Value, url: Value, timeout: Value, verify: Value)

  /** What `requests.request` returns: the status code and the elapsed time. */
  datatype HttpResponse = HttpResponse(statusCode: int, elapsedSeconds: real)

  /** The foreign calls a detector makes, as oracles. */
  datatype Env = Env(
    local: Command -> ProcessOutcome,
    remote: (Host, Command) -> RemoteOutcome,
    docker: Value -> Result<Container>,
    supervisor: (Value, Value) -> Result<ProcessInfo>,
    http: HttpRequest -> Result<HttpResponse>)

  /** `BaseDetector`: the detector's own name, its configuration and, for a remote
      detector, its host entry. */
  datatype Detector = Detector(name: Option<string>, config: Config, serverConfig: Option<Host>) {
    /** `is_remote`: set when a host entry was supplied. */
    predicate IsRemote() {
      serverConfig.Some?
    }
  }

  /** `_execute_local_command`: a timeout becomes `TimeoutError`, any other failure
      `RuntimeError`; a finished command is returned as it is. */
  function LocalCommand(cmd: Command, p: ProcessOutcome): (r: Result<Output>)
    ensures p.Completed? <==> r.Ok?
    ensures p.Completed? ==> r.value == Output(p.code, p.stdout, p.stderr)
    ensures p.Expired? ==> r.error.kind == TimeoutError
    ensures p.Crashed? ==> r.error.kind == RuntimeError
  {
    match p
    case Completed(code, out, err) => Ok(Output(code, out, err))
    case Expired =>
      Raised(PyException(TimeoutError, "Command timeout after " + ShowInt(cmd.timeout) + "s: " + cmd.line))
    case Crashed(reason) => Raised(PyException(RuntimeError, "Local command failed: " + reason))
  }

  /** `_execute_remote_command`: the pool's exception propagates unchanged, a failure while
      running the command becomes `RuntimeError`, and both outputs come back stripped. */
  function RemoteCommand(o: RemoteOutcome): (r: Result<Output>)
    ensures o.Executed? <==> r.Ok?
    ensures o.Executed? ==> r.value.code == o.code
    ensures o.Executed? ==> r.value.stdout == Strip(o.stdout) && r.value.stderr == Strip(o.stderr)
    ensures o.NoSession? ==> r.error == o.error
    ensures o.ExecFailed? ==> r.error.kind == RuntimeError
  {
    match o
    case NoSession(e) => Raised(e)
    case ExecFailed(reason) => Raised(PyException(RuntimeError, "SSH command failed: " + reason))
    case Executed(code, out, err) => Ok(Output(code, Strip(out), Strip(err)))
  }

  /** `execute_command`: over the pooled session when the detector is remote, as a local
      subprocess otherwise. */
  function ExecuteCommand(d: Detector, env: Env, cmd: Command): Result<Output> {
    if d.IsRemote() then RemoteCommand(env.remote(d.serverConfig.value, cmd))
    else LocalCommand(cmd, env.local(cmd))
  }

  /** A remote command's output never starts or ends with whitespace. */
  lemma RemoteOutputStripped(d: Detector, env: Env, cmd: Command)
    requires d.IsRemote()
    requires ExecuteCommand(d, env, cmd).Ok?
    ensures var out := ExecuteCommand(d, env, cmd).value;
      Strip(out.stdout) == out.stdout && Strip(out.stderr) == out.stderr
  {
    var o := env.remote(d.serverConfig.value, cmd);
    StripIdempotent(o.stdout);
    StripIdempotent(o.stderr);
  }

  /** The path taken depends on `is_remote` alone: a local detector never consults the
      remote oracle and a remote one never runs a subprocess. */
  lemma ExecuteCommandPath(d: Detector, e1: Env, e2: Env, cmd: Command)
    requires d.IsRemote() ==> e1.remote(d.serverConfig.value, cmd) == e2.remote(d.serverConfig.value, cmd)
    requires !d.IsRemote() ==> e1.local(cmd) == e2.local(cmd)
    ensures ExecuteCommand(d, e1, cmd) == ExecuteCommand(d, e2, cmd)
  {
  }

  /** `get_server_name`: "local" for a local detector; the host entry's `name` for a
      remote one, "unknown" when the entry has none. */
  function ServerName(d: Detector): (r: string)
    ensures !d.IsRemote() ==> r == "local"
    ensures d.IsRemote() ==> r == d.serverConfig.value.name.GetOr("unknown")
  {
    if d.IsRemote() then d.serverConfig.value.name.GetOr("unknown") else "local"
  }

  /** The identifying fields every verdict of a detector carries: its own name, its
      service type and `get_server_name()`. */
  predicate Identifies(r: CheckResult, d: Detector, serviceType: string) {
    r.serviceName == d.name && r.serviceType == serviceType && r.server == ServerName(d)
  }

  /** The `except Exception` clause shared by the docker, supervisor and REST API checks:
      a verdict the `try` block returned passes through, an exception becomes UNKNOWN with
      `context: str(e)` as its message and no details. */
  function Guard(d: Detector, serviceType: string, context: string, body: Result<CheckResult>): (r: CheckResult)
    requires body.Ok? ==> Identifies(body.value, d, serviceType) && body.value.status != Unknown
    ensures Identifies(r, d, serviceType)
    ensures r.status == Unknown <==> body.Raised?
    ensures body.Ok? ==> r == body.value
    ensures body.Raised? ==> r.message == context + ": " + body.error.text && r.details == None
  {
    match body
    case Ok(res) => res
    case Raised(e) => CheckResult(d.name, serviceType, Unknown, context + ": " + e.text, ServerName(d))
  }
}
