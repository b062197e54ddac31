# service_checker, modelled in Dafny

service_checker watches services on the local machine and on SSH hosts. Four detectors
probe a service and turn the outcome into a `CheckResult` with a status (healthy, unhealthy
or unknown), a message and a details map:

- systemd, through `systemctl is-active`;
- Docker, through the Docker SDK locally or `docker inspect` over SSH;
- supervisor, through XML-RPC locally or `supervisorctl status` over SSH;
- REST APIs, through `requests` locally or `curl` over SSH.

A factory builds detectors from service descriptions and a registry of detector classes.
A checker runs every service and converts every failure into an UNKNOWN verdict. A pool keeps
one SSH session per server. The logger and the web dashboard count the results, group them
by host and derive health by precedence. The dashboard page's script escapes HTML, scores
host health and picks colours, labels and icons.

The model lives in these modules:

| file | module | source |
|---|---|---|
| pystr.dfy | `PyStr` | the Python string operations the detectors rely on (`strip`, `lower`, `upper`, `split`, `startswith`, `isdigit`, `int`, decimal rendering) |
| base.dfy | `Base` | detectors/base.py: results, the command executor, the server name, the shared exception guard |
| systemd.dfy | `Systemd` | detectors/systemd_detector.py |
| docker.dfy | `Docker` | detectors/docker_detector.py |
| supervisor.dfy | `Supervisor` | detectors/supervisor_detector.py |
| restapi.dfy | `RestApi` | detectors/restapi_detector.py |
| factory.dfy | `Factory` | detectors/__init__.py and detector_factory.py |
| dispatcher.dfy | `Dispatcher` | concurrent_checker.py |
| sshpool.dfy | `SshPool` | ssh_manager.py |
| tally.dfy | `Tally` | counting results by status (shared by logger.py and web_server.py) |
| logger.dfy | `Logger` | logger.py |
| dashboard.dfy | `Dashboard` | web_server.py |
| script.dfy | `Frontend` | static/js/script.js |

Foreign calls are oracles:

- the subprocess run, the SSH exec, the Docker SDK, the XML-RPC call and the HTTP request are function-typed fields of `Base.Env`;
- the SSH connect, liveness probe, close and home-directory lookup are function parameters of the `SshPool.SshManager` methods;
- a custom detector's `check` is a function parameter.

Configuration values are YAML scalars (`Base.Value`: None, bool, int or str) and compare
with Python's `==` (`Base.PyEq`: booleans and integers compare as numbers). `time.time()` is
an input `now`.

The detectors are pure, so they are functions over `Result`. An exception is a `Raised`
value with its class and its `str()`.

The stateful parts are classes:

- the registry (`Factory.Registry`);
- the SSH pool (`SshPool.SshManager`, whose `connections` is a `map`);
- the log (`Logger.LogManager`, whose emitted records are a `seq`);
- the dashboard (`Dashboard.WebServer`);
- the checker (`Dispatcher.ConcurrentChecker`).

Their loops carry invariants against specification functions.

## Model

| member | source | states |
|---|---|---|
| PyStr.StripSpec | detectors/systemd_detector.py:17 | `strip()` removes exactly the leading and trailing whitespace run: the result is a slice of the input, every removed character is whitespace, and the result neither starts nor ends with whitespace |
| PyStr.StripIdempotent | detectors/docker_detector.py:86 | stripping twice is stripping once |
| PyStr.LowerIdempotent | detectors/docker_detector.py:86-88 | `lower()` of a lowered text changes nothing, so comparing against `expected.lower()` is stable |
| PyStr.UpperIgnoresCase | detectors/supervisor_detector.py:77-78 | two texts with equal lower-case forms have equal upper-case forms |
| PyStr.SplitJoin | detectors/supervisor_detector.py:72 | `split('\n')` loses nothing: joining the pieces with the separator gives the text back, and no piece contains the separator |
| PyStr.WordsKeepText | detectors/supervisor_detector.py:75 | `split()` keeps every non-whitespace character in order and drops only whitespace; no word is empty or holds whitespace |
| PyStr.WordsOfTwo | detectors/supervisor_detector.py:75-77 | two words separated by one space split into exactly those two words |
| PyStr.ParseShow | detectors/restapi_detector.py:78-79 | the decimal rendering of a natural number is all digits, and `int()` of it gives the number back |
| Base.StatusTextInjective | detectors/base.py:8-11 | the three statuses have distinct `.value`s |
| Base.LocalCommand | detectors/base.py:46-61 | a finished process yields its exit code, stdout and stderr; a timeout raises `TimeoutError`; any other failure raises `RuntimeError` |
| Base.RemoteCommand | detectors/base.py:63-75 | a remote command yields its exit code with stdout and stderr stripped; a session failure propagates unchanged; an exec failure raises `RuntimeError` |
| Base.RemoteOutputStripped | detectors/base.py:71-72 | remote output never starts or ends with whitespace |
| Base.ExecuteCommandPath | detectors/base.py:31-44 | `execute_command` consults the remote executor exactly when a host entry was supplied, and the local one otherwise |
| Base.ServerName | detectors/base.py:77-81 | "local" for a local detector; the host entry's `name` for a remote one, "unknown" when absent |
| Base.Guard | detectors/docker_detector.py:33-46 | the shared `except Exception` clause: the verdict always carries the detector's name, type and server; it is UNKNOWN exactly when the body raised, with message `context: str(e)` and no details; otherwise it is the body's verdict |
| Systemd.MismatchDetails | detectors/systemd_detector.py:38-43 | an UNHEALTHY verdict's details hold exactly `actual_status`, `expected_status`, `error` and `server` |
| Systemd.Classify | detectors/systemd_detector.py:17-61 | HEALTHY iff the exit code is 0 and the stripped stdout equals the expected status (default 'active'); UNKNOWN iff a non-timeout exception was raised; a timeout is UNHEALTHY without details; name, type and server identify the detector |
| Systemd.Check | detectors/systemd_detector.py:7-61 | `check` never raises and its verdict identifies the detector |
| Systemd.CheckDependsOnStatusCommand | detectors/systemd_detector.py:14-15 | the verdict depends only on the answer to the one status command |
| Systemd.BothConditionsNeeded | detectors/systemd_detector.py:19-44 | exit 0 with another state, or a matching state with a non-zero exit, is UNHEALTHY |
| Systemd.TimeoutIsUnhealthy | detectors/systemd_detector.py:46-53 | a command timeout gives UNHEALTHY, not UNKNOWN, with no details |
| Docker.NormalizeState | detectors/docker_detector.py:86 | the normalised state (whitespace and single quotes stripped, then lower-cased) is in lower case and no longer than the printed output |
| Docker.FailureMessagesDistinct | detectors/docker_detector.py:118-133 | "exists but inspect failed" and "not found" can never be the same message |
| Docker.StateVerdict | detectors/docker_detector.py:53-112 | raises iff the expected state is not a string, or the state matches and the image-tag lookup raised; HEALTHY iff the observed state equals the lower-cased expected state; every verdict's details hold `actual_state` and `server`; HEALTHY details hold the image tags exactly when a local lookup supplied them; UNHEALTHY details also hold the expected state |
| Docker.Remote | detectors/docker_detector.py:80-133 | a remote verdict identifies the detector and is never UNKNOWN |
| Docker.RemoteInspectSucceeded | detectors/docker_detector.py:85-112 | after an inspect exit of 0 the normalised output is compared with the expected state |
| Docker.RemoteCommandRaised | detectors/docker_detector.py:80-133 | an inspect or existence command that raises ends the remote path with that exception, and `check` gives UNKNOWN without details |
| Docker.RemoteInspectFailed | detectors/docker_detector.py:113-133 | after a failed inspect, "exists but inspect failed" iff the probe exits 0 and prints exactly the container name, else "not found"; both UNHEALTHY without details |
| Docker.Local | detectors/docker_detector.py:48-78 | the SDK's exception propagates; otherwise the lower-cased container status is compared with the lower-cased expected state, and HEALTHY details carry the image tags; a failing image-tag lookup raises only when the state matches, so a mismatch stays UNHEALTHY |
| Docker.Check | detectors/docker_detector.py:28-46 | `check` never raises: UNKNOWN exactly when the remote or local path raised |
| Docker.RemoteAsksAtMostTwo | detectors/docker_detector.py:82-116 | a remote check depends only on the inspect answer and, when inspect fails, the existence probe's answer |
| Docker.ExpectedStateCaseInsensitive | detectors/docker_detector.py:48-88 | changing only the case of the expected state leaves the verdict's status unchanged |
| Supervisor.ScanFindsFirst | detectors/supervisor_detector.py:72-77 | with a string name the scan never raises; it finds nothing iff no line starts with the name and has two words, and otherwise reports the second word of the first such line |
| Supervisor.ScanRejectsNonString | detectors/supervisor_detector.py:74 | a process name that is not a string makes `startswith` raise `TypeError` |
| Supervisor.PrefixMatch | detectors/supervisor_detector.py:74 | matching is by prefix: a line for "web2" is accepted when checking "web" |
| Supervisor.StateVerdict | detectors/supervisor_detector.py:77-102 | raises iff the expected state is not a string; HEALTHY iff the upper-cased state word equals the upper-cased expected state; the details hold `actual_state` and `server`, plus `expected_state` when UNHEALTHY |
| Supervisor.Remote | detectors/supervisor_detector.py:64-118 | a remote verdict identifies the detector and is never UNKNOWN |
| Supervisor.RemoteCommandFailed | detectors/supervisor_detector.py:111-118 | a non-zero exit gives UNHEALTHY "Failed to check supervisor process" without details |
| Supervisor.RemoteFirstLineDecides | detectors/supervisor_detector.py:70-110 | after exit 0, no qualifying line gives UNHEALTHY "not found in output"; otherwise the first qualifying line's state word decides |
| Supervisor.Local | detectors/supervisor_detector.py:28-62 | the XML-RPC exception propagates; otherwise HEALTHY iff `statename == expected` exactly (case-sensitive), with `actual_state` and `server` in all details and `pid` in the HEALTHY ones |
| Supervisor.Check | detectors/supervisor_detector.py:7-26 | `check` never raises: UNKNOWN exactly when the remote or local path raised; the expected state defaults to 'RUNNING' |
| Supervisor.RemoteIgnoresCaseLocalDoesNot | detectors/supervisor_detector.py:37-78 | "running" against "RUNNING" is HEALTHY remotely and UNHEALTHY locally |
| RestApi.CurlCommand | detectors/restapi_detector.py:74-76 | the command is built iff the timeout is a number, with a command timeout 5 seconds longer; a string or None timeout raises `TypeError` |
| RestApi.CurlVerdict | detectors/restapi_detector.py:78-112 | HEALTHY iff curl exited 0, printed only digits, and their value equals the expected status; every answer's details hold `status_code` and `server`; an answer with another code is UNHEALTHY with the expected code in details too; a failure or a non-numeric output is UNHEALTHY "Failed to check API" without details |
| RestApi.PrintedCodeDecides | detectors/restapi_detector.py:78-80 | when curl prints a status code in decimal, the verdict compares exactly that code |
| RestApi.EmptyOutputFails | detectors/restapi_detector.py:78-112 | empty output, even with exit 0, is a failure |
| RestApi.Remote | detectors/restapi_detector.py:70-112 | a remote verdict identifies the detector and is never UNKNOWN |
| RestApi.RemoteOutcome | detectors/restapi_detector.py:74-78 | the remote path raises exactly when the timeout is not a number or the command raises |
| RestApi.Local | detectors/restapi_detector.py:33-68 | the request's exception propagates; otherwise HEALTHY iff the status code equals the expected status, with `status_code` and `server` in all details, `response_time` in HEALTHY and `expected_status` in UNHEALTHY ones |
| RestApi.Check | detectors/restapi_detector.py:8-31 | `check` never raises: UNKNOWN exactly when the remote or local path raised |
| RestApi.RemoteDefaults | detectors/restapi_detector.py:9-13 | with an empty configuration the remote check sends a GET with timeout 5 and a command timeout of 10 |
| Factory.InitialRegistry | detectors/__init__.py:7-12 | the registry holds exactly systemd, restapi, supervisor and docker, each mapped to its detector |
| Factory.Registry.Register | detector_factory.py:31-34 | the tag now names the new class; every other tag is unchanged |
| Factory.NewFactory | detector_factory.py:8-9 | a missing SSH server map is an empty one |
| Factory.CreateDetector | detector_factory.py:11-29 | "Unsupported service type" iff the type is absent or unregistered; "Unknown server" iff the type is known and a truthy server is not in the map; otherwise a detector of the registered class with the service's name, the config (default `{}`) and, exactly when the server is truthy, that server's host entry |
| Factory.TypeCheckedFirst | detector_factory.py:18-26 | an unknown type with an unknown server reports the type |
| Factory.BuiltServerName | detector_factory.py:22-29 | a detector built for a truthy server reports that entry's `name` (or "unknown"); one built without reports "local" |
| Factory.RunCheck | detectors/__init__.py:7-12 | the built-in detectors never raise; a custom class's check is the oracle's |
| Factory.BuiltInServiceType | detectors/__init__.py:7-12 | each built-in class reports its own service type |
| Dispatcher.Fallback | concurrent_checker.py:53-61 | the fallback verdict is UNKNOWN with the given message, no details, and name, type and server from the service (defaults 'unknown', 'unknown', 'local') |
| Dispatcher.CheckSingle | concurrent_checker.py:47-61 | a factory or check exception gives the fallback "Failed to create or execute detector: str(e)"; otherwise the detector's verdict |
| Dispatcher.BuiltInVerdictKept | concurrent_checker.py:49-51 | a built-in detector that was built gives its own verdict, never the fallback |
| Dispatcher.Outcome | concurrent_checker.py:28-43 | an exception escaping a task gives "Check failed with exception: str(exc)" for that service; otherwise its own check |
| Dispatcher.FailureIsolation | concurrent_checker.py:28-61 | under the pure remote oracle, a service's outcome depends on that service and its own escaped exception alone |
| Dispatcher.EveryTaskCompletes | concurrent_checker.py:22-28 | in any completion order of n tasks, every task index occurs |
| Dispatcher.OneResultPerService | concurrent_checker.py:28-32 | each service's outcome sits at exactly one position of the collected list |
| Dispatcher.ConcurrentChecker.constructor | concurrent_checker.py:11-13 | `max_workers` defaults to 5 and a factory with no SSH servers is created when none is given |
| Dispatcher.ConcurrentChecker.Collect | concurrent_checker.py:29-43 | collecting one finished task gives that service's outcome: its own result, or the UNKNOWN fallback when an exception escaped the task |
| Dispatcher.ConcurrentChecker.CheckServices | concurrent_checker.py:16-45 | one result per service, in completion order: position k holds the outcome of the k-th completed service, so the results are a permutation of the per-service outcomes |
| SshPool.PoolKeyIsServerName | ssh_manager.py:78 | the pool key of a host entry is the server name a detector built from it reports |
| SshPool.UnnamedHostsCollide | ssh_manager.py:76-78 | host entries without a `name` share the key "unknown" |
| SshPool.ExpandUser | ssh_manager.py:31-33 | a path not starting with '~' is returned unchanged |
| SshPool.ExpandUserKnownHome | ssh_manager.py:31-33 | with a known home, `~user` is replaced by the home without trailing slashes, the rest is kept, and an empty result becomes "/" |
| SshPool.ExpandUserUnknownHome | ssh_manager.py:31-33 | an unknown user leaves the path unchanged |
| SshPool.ConnectRequest | ssh_manager.py:14-51 | a missing `host` or `username` raises `KeyError` (host first); a truthy key file, home-expanded when it starts with '~', wins over a password; with neither, `ValueError`; port defaults to 22 and timeout to 10 |
| SshPool.KeyFileBeforePassword | ssh_manager.py:29-49 | with both a key file and a password, the key file is used |
| SshPool.PlainKeyFileUnchanged | ssh_manager.py:31 | a key file path not starting with '~' is used unchanged |
| SshPool.ConnectOutcome | ssh_manager.py:35-51 | a request error propagates; otherwise the connect call's answer is the outcome |
| SshPool.SshManager.Connect | ssh_manager.py:14-59 | on success the client is stored under the entry's name (default 'unknown'), replacing any prior one; on any failure the exception propagates and the pool is unchanged |
| SshPool.SshManager.GetConnection | ssh_manager.py:61-73 | a pooled client whose probe succeeds is returned and the pool is unchanged; a failed probe removes the entry before reconnecting, so a failed reconnect leaves it absent |
| SshPool.SshManager.GetSshClient | ssh_manager.py:76-85 | the pool is keyed by the entry's `name`, default 'unknown' |
| SshPool.SshManager.CloseAll | ssh_manager.py:88-96 | `close` is tried once on every pooled client, failures are only reported, and the pool ends empty |
| Tally.CountsPartition | logger.py:30-47 | the three status counts add up to the number of results |
| Tally.CountPositive | logger.py:50 | a status count is positive iff some result has that status |
| Logger.ResultRecord | logger.py:35-43 | a result is logged at info if HEALTHY, error if UNHEALTHY, warning otherwise |
| Logger.Emitted | logger.py:34-51 | one record per result in order, then one summary with the three counts and the total, then an alert iff some count of UNHEALTHY is positive |
| Logger.AlertIffUnhealthy | logger.py:50-51 | the alert is logged iff some result is UNHEALTHY, and it carries the unhealthy count |
| Logger.PerResultLevels | logger.py:34-43 | the per-result records hold as many records of a level as results of the matching status |
| Logger.EmittedLevels | logger.py:34-51 | info records are the healthy results plus the summary; warnings are the unknown results; errors are the unhealthy results plus the alert when there is one |
| Logger.LogManager.LogResults | logger.py:28-51 | the log grows by exactly the emitted records: one per result, the summary with the status counts, and the alert iff some result is UNHEALTHY |
| Dashboard.HostConfig | web_server.py:152-158 | the SSH server map's entry for the host, an empty entry when there is no map or no entry |
| Dashboard.HostType | web_server.py:160-164 | "本地主机" iff the entry is empty, "SSH远程主机" otherwise |
| Dashboard.HealthPrecedence | web_server.py:96-125 | a host's health is 'unhealthy' if any result is UNHEALTHY, else 'warning' if any is UNKNOWN, else 'healthy' |
| Dashboard.HealthOrderFree | web_server.py:119-125 | the health does not depend on the order of the results |
| Dashboard.ServersSpec | web_server.py:86-88 | a name is a host of the dashboard iff some result ran on it |
| Dashboard.HostCountsAgree | web_server.py:113-125 | for each host, healthy + unhealthy + unknown = total services = number of listed services |
| Dashboard.StrLessTotal | web_server.py:129 | distinct host names are ordered one way or the other |
| Dashboard.StrLessTransitive | web_server.py:129 | the name order is transitive |
| Dashboard.SortHosts | web_server.py:128-129 | the sorted list holds the same hosts, strictly increasing by name |
| Dashboard.PartitionSum | web_server.py:133-135 | summing a status's count over distinct names covering every server gives that status's count over all results |
| Dashboard.OverallIsHealthOfAll | web_server.py:137-139 | the overall status from the totals is the health of all results taken together |
| Dashboard.GroupByServer | web_server.py:84-125 | the grouping loop opens one entry per server and leaves each entry equal to that server's specification: its results in order, their counts and their health |
| Dashboard.Place | web_server.py:86-125 | one pass of the grouping loop keeps the grouping exact: after a result is placed, the entries are exactly those of the servers met so far, each its server's specification for the longer run |
| Dashboard.Absorb | web_server.py:103-125 | the loop body's update of an entry lists the result, adds one to the total and to the count of its status, and takes one health step (UNHEALTHY sets 'unhealthy', UNKNOWN turns 'healthy' into 'warning') |
| Dashboard.GroupStep | web_server.py:103-125 | one more result for a server takes that server's specified entry to its specified entry for the longer run by exactly that update, so the loop body keeps each entry equal to its specification |
| Dashboard.SortedListing | web_server.py:128-135 | the sorted list covers exactly the servers, each entry is its server's, and the per-host counts sum to the counts over all results |
| Dashboard.WebServer.UpdateResults | web_server.py:166-169 | the results are replaced wholesale and the check time recorded |
| Dashboard.WebServer.FormatStatusData | web_server.py:68-150 | no results give no hosts, 'unknown' and zero totals; otherwise one entry per server sorted by name, each exactly that server's, totals equal to the status counts and `len(results)`, and overall status equal to the health of all results |
| Frontend.ChainEscapesEachChar | static/js/script.js:397-401 | because '&' is replaced first, the chain of replacements maps each character to its own chunk and leaves other characters unchanged |
| Frontend.EscapeHtml | static/js/script.js:394-402 | null or undefined gives ''; otherwise each character is escaped on its own |
| Frontend.EscapedIsInert | static/js/script.js:396-401 | escaped text holds no `<`, `>`, `"` or `'`, and each '&' in it begins one of the five entities |
| Frontend.UnescapeEscape | static/js/script.js:396-401 | decoding the entities gives the original text back, so escaping loses nothing |
| Frontend.HealthScore | static/js/script.js:267-270 | 0 for a host without services; otherwise the integer nearest 100·healthy/total, halves rounded up |
| Frontend.ScoreIsPercentage | static/js/script.js:267-270 | with healthy ≤ total the score is in [0, 100]; all healthy gives 100 and none healthy gives 0 |
| Frontend.ScoreMonotone | static/js/script.js:267-270 | more healthy services never lower the score |
| Frontend.ScoreColor | static/js/script.js:272-276 | 'success' iff the score is ≥ 90, 'warning' iff it is in [70, 90), 'danger' iff it is < 70 |
| Frontend.ColorMonotone | static/js/script.js:272-276 | a higher score never gets a worse colour |
| Frontend.StatusText | static/js/script.js:318-326 | the four known statuses map to their Chinese labels; any other status is returned unchanged |
| Frontend.StatusTextDistinguishes | static/js/script.js:318-326 | distinct known statuses get distinct labels, and every status a result can have is translated |
| Frontend.StatusIcon | static/js/script.js:278-286 | healthy, unhealthy and warning have their own icons; 'unknown' and every other status get the question icon |
| Frontend.OwnIconIffKnown | static/js/script.js:278-286 | a status gets an icon other than the question icon iff it is healthy, unhealthy or warning |
| Frontend.KeptEntries | static/js/script.js:293-294 | exactly the entries whose key is not 'server' are kept |
| Frontend.RenderServiceDetails | static/js/script.js:288-299 | '' iff the details are absent or no key other than 'server' remains; otherwise the details row of one badge per kept entry |
| Frontend.ServerOnlyRendersNothing | static/js/script.js:288-299 | details holding only the server render as nothing |

## Left out

- The Flask routes, `run`, `run_in_thread` and the HTML page: HTTP and browser plumbing. The other scripts are left out too: service_monitor.py (YAML loading, signals, the interval loop), run.py and run_app.py (entry points, desktop packaging).
- The thread pool of `ConcurrentChecker`: worker bounding and timing are concurrency. The completion order is an input permutation, and the exceptions that escape a task are an input map.
- Dispatcher.FailureIsolation: holds only under the pure remote oracle. In the source every worker thread shares one SSH pool, whose per-server map is read and updated without a lock (ssh_manager.py:53-73), and `SshPool.SshManager` is modelled for one caller at a time. Tasks on one server can interfere through it: when two of them find the same stale client, both delete it and the second `del` raises `KeyError`, so that service becomes UNKNOWN; two concurrent connects to one server overwrite each other, and the overwritten client is never closed.
- Factory.CreateDetector: a service whose `config` is null passes None to the detector, whose first `config.get` then raises `AttributeError` outside its guard and surfaces as "Failed to create or execute detector"; the model reads a null `config` as an absent one and applies the defaults. Likewise a null `ssh_servers` entry makes the source's detector local, and the model has no null host entry.
- The lazy Docker client cache (detectors/docker_detector.py:14-26): it is imperative state of the SDK wrapper. A failure to create the client is part of the Docker oracle's answer.
- paramiko, subprocess, the Docker SDK, xmlrpc and `requests` are oracles, including what the SSH liveness probe tests. The remote executor stands for `get_ssh_client` followed by `exec_command`.
- Logging output: handlers, formatting, timestamps, and the log lines of the SSH pool and the checker. `Logger.LogManager` keeps only the level and text of each record.
- Every `time.time()` call is the single input `now`, so the per-service timestamps of one formatting call are equal.
- Floating point: `response_time` is an opaque real, and the progress-bar width is not modelled.
- Frontend.HealthScore: computed exactly over the rationals; the page computes `Math.round` over IEEE doubles, which can differ at exact halves.
- Lower, Upper and IsDigit in `PyStr` cover ASCII only; Python's `lower()`, `upper()` and `isdigit()` also map other Unicode letters and digits.
- Configuration values are None, booleans, integers or strings. Floats, lists and nested maps in a service's `config` are not modelled, and neither are non-string service names, types or servers.
- A host entry is a record of optional fields, so a key present with the value None cannot be told apart from an absent key. The same goes for an entry's extra keys. `Dashboard.HostType` treats the all-absent entry as empty.
- The JavaScript helpers take strings: `escapeHtml`'s `toString()` of non-strings, lookup-table keys inherited from `Object.prototype`, and the key order of objects with integer-like keys are not modelled. Details values are their rendered text.
- `Dashboard.SortHosts` orders distinct names only (the grouping makes them distinct); Python's sort of mixed-type names is not modelled.
- `setup_logger`'s level parsing and the per-module loggers: logging configuration.
