/** The REST API detector (detectors/restapi_detector.py): over SSH a `curl` that prints
    only the HTTP status code, locally one `requests.request` call. */
module RestApi {
  import opened PyStr
  import opened Base

  /** `url` from the configuration (None when absent). */
  function Url(c: Config): Value {
    Get(c, "url", Null)
  }

  /** `method`, "GET" by default. */
  function HttpMethod(c: Config): Value {
    Get(c, "method", Str("GET"))
  }

  /** `timeout`, 5 seconds by default. */
  function Timeout(c: Config): Value {
    Get(c, "timeout", Int(5))
  }

  /** `expected_status`, 200 by default. */
  function ExpectedStatus(c: Config): Value {
    Get(c, "expected_status", Int(200))
  }

  /** `verify_ssl`, True by default. */
  function VerifySsl(c: Config): Value {
    Get(c, "verify_ssl", Bool(true))
  }

  /** The curl invocation; the f-string inserts `str()` of each value. */
  function CurlLine(httpMethod: Value, timeout: Value, url: Value): string {
    "curl -X " + Show(httpMethod) + " -s -o /dev/null -w '%{http_code}' --connect-timeout " + Show(timeout)
    + " --max-time " + Show(timeout) + " " + Show(url)
  }

  /** The remote command: the curl line, run with five seconds more than curl's own limit.
      `timeout + 5` raises `TypeError` unless the timeout is a number (a boolean counts
      as 0 or 1). */
  function CurlCommand(httpMethod: Value, timeout: Value, url: Value): (r: Result<Command>)
    ensures r.Ok? <==> timeout.Int? || timeout.Bool?
    ensures r.Ok? ==> r.value.timeout == NumericValue(timeout) + 5
    ensures r.Ok? ==> r.value.line == CurlLine(httpMethod, timeout, url)
    ensures r.Raised? ==> r.error.kind == TypeError
  {
    match timeout
    case Int(i) => Ok(Command(CurlLine(httpMethod, timeout, url), i + 5))
    case Bool(b) => Ok(Command(CurlLine(httpMethod, timeout, url), if b then 6 else 5))
    case Str(_) => Raised(PyException(TypeError, "can only concatenate str (not \"int\") to str"))
    case Null => Raised(PyException(TypeError, "unsupported operand type(s) for +: 'NoneType' and 'int'"))
  }

  function FailedMessage(url: Value, error: string): string {
    "Failed to check API " + Show(url) + ": " + error
  }

  /** Whether curl answered with a status code: exit 0 and an all-digit output. */
  predicate Answered(out: Output) {
    out.code == 0 && IsDigits(out.stdout)
  }

  /** The verdict on what curl printed. */
  function CurlVerdict(d: Detector, url: Value, out: Output, expected: Value): (r: CheckResult)
    ensures Identifies(r, d, "restapi") && r.status != Unknown
    ensures r.status == Healthy <==> Answered(out) && PyEq(Int(ParseDecimal(out.stdout)), expected)
    ensures r.details == None <==> !Answered(out)
    ensures !Answered(out) ==> r.status == Unhealthy && r.message == FailedMessage(url, out.stderr)
    ensures Answered(out) ==>
              "status_code" in r.details.value
              && r.details.value["status_code"] == Scalar(Int(ParseDecimal(out.stdout)))
              && "server" in r.details.value && r.details.value["server"] == Scalar(Str(ServerName(d)))
    ensures Answered(out) && r.status == Unhealthy ==>
              "expected_status" in r.details.value && r.details.value["expected_status"] == Scalar(expected)
  {
    var server := ServerName(d);
    if Answered(out) then
      var code := ParseDecimal(out.stdout);
      if PyEq(Int(code), expected) then
        CheckResult(d.name, "restapi", Healthy, "API " + Show(url) + " returned status " + ShowInt(code), server,
                    Some(map["status_code" := Scalar(Int(code)), "server" := Scalar(Str(server))]))
      else
        CheckResult(d.name, "restapi", Unhealthy,
                    "API " + Show(url) + " returned status " + ShowInt(code) + ", expected " + Show(expected), server,
                    Some(map["status_code" := Scalar(Int(code)), "expected_status" := Scalar(expected),
                             "server" := Scalar(Str(server))]))
    else
      CheckResult(d.name, "restapi", Unhealthy, FailedMessage(url, out.stderr), server)
  }

  /** A server whose status code curl prints is judged on that code: the decimal text
      reads back as the number, so the verdict is HEALTHY exactly when the code equals
      the expected status. */
  lemma PrintedCodeDecides(d: Detector, url: Value, code: nat, stderr: string, expected: Value)
    ensures var r := CurlVerdict(d, url, Output(0, ShowNat(code), stderr), expected);
      (r.status == Healthy <==> PyEq(Int(code), expected)) && r.details.Some?
  {
    ParseShow(code);
  }

  /** Empty output, even with exit 0, is not a status code. */
  lemma EmptyOutputFails(d: Detector, url: Value, stderr: string, expected: Value)
    ensures CurlVerdict(d, url, Output(0, "", stderr), expected)
              == CheckResult(d.name, "restapi", Unhealthy, FailedMessage(url, stderr), ServerName(d))
  {
  }

  /** `_check_remote_api`. */
  function Remote(d: Detector, env: Env, url: Value, httpMethod: Value, timeout: Value, expected: Value)
    : (r: Result<CheckResult>)
    ensures r.Ok? ==> Identifies(r.value, d, "restapi") && r.value.status != Unknown
  {
    match CurlCommand(httpMethod, timeout, url)
    case Raised(e) => Raised(e)
    case Ok(cmd) =>
      match ExecuteCommand(d, env, cmd)
      case Raised(e) => Raised(e)
      case Ok(out) => Ok(CurlVerdict(d, url, out, expected))
  }

  /** The remote path raises exactly when the timeout is not a number or the command
      raised; otherwise the verdict is the one on curl's output. */
  lemma RemoteOutcome(d: Detector, env: Env, url: Value, httpMethod: Value, timeout: Value, expected: Value)
    ensures var c := CurlCommand(httpMethod, timeout, url);
      var r := Remote(d, env, url, httpMethod, timeout, expected);
      && (r.Raised? <==> c.Raised? || ExecuteCommand(d, env, c.value).Raised?)
      && (r.Ok? ==> r.value == CurlVerdict(d, url, ExecuteCommand(d, env, c.value).value, expected))
  {
  }

  /** `_check_local_api`: the response's status code is compared with the expected status
      by Python equality; HEALTHY details carry the response time, UNHEALTHY details the
      expected status. */
  function Local(d: Detector, env: Env, req: HttpRequest, expected: Value): (r: Result<CheckResult>)
    ensures r.Raised? <==> env.http(req).Raised?
    ensures r.Ok? ==> Identifies(r.value, d, "restapi") && r.value.status != Unknown
    ensures r.Ok? ==> (r.value.status == Healthy <==> PyEq(Int(env.http(req).value.statusCode), expected))
    ensures r.Ok? ==>
              && r.value.details.Some? && "status_code" in r.value.details.value
              && r.value.details.value["status_code"] == Scalar(Int(env.http(req).value.statusCode))
              && "server" in r.value.details.value && r.value.details.value["server"] == Scalar(Str(ServerName(d)))
    ensures r.Ok? && r.value.status == Healthy ==>
              "response_time" in r.value.details.value
              && r.value.details.value["response_time"] == Seconds(env.http(req).value.elapsedSeconds)
    ensures r.Ok? && r.value.status == Unhealthy ==>
              "expected_status" in r.value.details.value
              && r.value.details.value["expected_status"] == Scalar(expected)
  {
    var server := ServerName(d);
    var url := req.url;
    match env.http(req)
    case Raised(e) => Raised(e)
    case Ok(resp) =>
      var code := resp.statusCode;
      if PyEq(Int(code), expected) then
        Ok(CheckResult(d.name, "restapi", Healthy, "API " + Show(url) + " returned status " + ShowInt(code), server,
                       Some(map["status_code" := Scalar(Int(code)), "response_time" := Seconds(resp.elapsedSeconds),
                                "server" := Scalar(Str(server))])))
      else
        Ok(CheckResult(d.name, "restapi", Unhealthy,
                       "API " + Show(url) + " returned status " + ShowInt(code) + ", expected " + Show(expected), server,
                       Some(map["status_code" := Scalar(Int(code)), "expected_status" := Scalar(expected),
                                "server" := Scalar(Str(server))])))
  }

  /** The request a local check sends: method, URL, timeout and certificate check as
      configured. */
  function Request(c: Config): HttpRequest {
    HttpRequest(HttpMethod(c), Url(c), Timeout(c), VerifySsl(c))
  }

  /** The `try` block of `check`. */
  function Body(d: Detector, env: Env): (r: Result<CheckResult>)
    ensures r.Ok? ==> Identifies(r.value, d, "restapi") && r.value.status != Unknown
  {
    var c := d.config;
    if d.IsRemote() then Remote(d, env, Url(c), HttpMethod(c), Timeout(c), ExpectedStatus(c))
    else Local(d, env, Request(c), ExpectedStatus(c))
  }

  /** `RestApiDetector.check`: never raises; an exception on either path is UNKNOWN. */
  function Check(d: Detector, env: Env): (r: CheckResult)
    ensures Identifies(r, d, "restapi")
    ensures r.status == Unknown <==> Body(d, env).Raised?
    ensures Body(d, env).Ok? ==> r == Body(d, env).value
  {
    Guard(d, "restapi", "Error checking API " + Show(Url(d.config)), Body(d, env))
  }

  /** With no configuration at all, a remote check sends a GET to the URL None with
      curl limited to 5 seconds and the command to 10. */
  lemma RemoteDefaults(c: Config)
    requires c == map[]
    ensures CurlCommand(HttpMethod(c), Timeout(c), Url(c)) == Ok(Command(CurlLine(Str("GET"), Int(5), Null), 10))
  {
  }
}
