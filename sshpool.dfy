/** `SSHManager` (ssh_manager.py): one pooled SSH client per server name, connected on
    first use, probed before reuse and replaced when the probe fails. The paramiko client,
    its connect call, its liveness probe and its close call are oracles. */
module SshPool {
  import opened PyStr
  import opened Base

  /** A paramiko client, known by an identity. */
  type Client = nat

  /** The credential a connection uses. */
  datatype Auth = KeyFile(path: string) | Password(secret: string)

  /** The arguments of `client.connect`. */
  datatype ConnectArgs = ConnectArgs(host: string, port: int, username: string, auth: Auth, timeout: int)

  /** The pool key of a host entry: its `name`, "unknown" when absent. */
  function PoolKey(h: Host): string {
    h.name.GetOr("unknown")
  }

  /** The pool key is the name a remote detector reports as its server. */
  lemma PoolKeyIsServerName(h: Host, name: Option<string>, c: Config)
    ensures PoolKey(h) == ServerName(Detector(name, c, Some(h)))
  {
  }

  /** Two host entries without a `name` share the key "unknown", so they share one
      pooled session whatever their addresses. */
  lemma UnnamedHostsCollide(h1: Host, h2: Host)
    requires h1.name.None? && h2.name.None?
    ensures PoolKey(h1) == PoolKey(h2) == "unknown"
  {
  }

  predicate Truthy(o: Option<string>) {
    o.Some? && o.value != ""
  }

  /** The end of the user part of a `~user/rest` path: the first '/' after position 0,
      or the end of the path. */
  function UserPartEnd(path: string, from: nat): (i: nat)
    requires 1 <= from <= |path|
    ensures from <= i <= |path|
    ensures forall k :: from <= k < i ==> path[k] != '/'
    ensures i < |path| ==> path[i] == '/'
    decreases |path| - from
  {
    if from == |path| || path[from] == '/' then from else UserPartEnd(path, from + 1)
  }

  /** `os.path.expanduser` on POSIX. `home(user)` is the home directory the system knows
      for `user` (for "", the current user's, from `HOME` or the password database);
      None when there is none, in which case the path is returned unchanged. */
  function ExpandUser(path: string, home: string -> Option<string>): (r: string)
    ensures !(|path| > 0 && path[0] == '~') ==> r == path
  {
    if |path| == 0 || path[0] != '~' then path
    else
      var i := UserPartEnd(path, 1);
      match home(path[1..i])
      case None => path
      case Some(h) =>
        var joined := TrimEnd(h, c => c == '/') + path[i..];
        if joined == "" then "/" else joined
  }

  /** With a known home directory, the user part is replaced by that directory without its
      trailing slashes and the rest of the path is kept; an empty outcome becomes "/". */
  lemma ExpandUserKnownHome(path: string, home: string -> Option<string>)
    requires |path| > 0 && path[0] == '~'
    requires home(path[1..UserPartEnd(path, 1)]).Some?
    ensures var i := UserPartEnd(path, 1);
      var base := TrimEnd(home(path[1..i]).value, c => c == '/');
      && (base + path[i..] != "" ==> ExpandUser(path, home) == base + path[i..])
      && (base + path[i..] == "" ==> ExpandUser(path, home) == "/")
  {
  }

  /** An unknown user leaves the path as it is. */
  lemma ExpandUserUnknownHome(path: string, home: string -> Option<string>)
    requires |path| > 0 && path[0] == '~'
    requires home(path[1..UserPartEnd(path, 1)]).None?
    ensures ExpandUser(path, home) == path
  {
  }

  /** The part of `connect` before the network: `host` and `username` are required (a
      missing one raises `KeyError`, `host` first); a key file, home-expanded when it
      starts with '~', is preferred to a password; with neither, `ValueError`. The port
      defaults to 22 and the timeout to 10. */
  function ConnectRequest(config: Host, home: string -> Option<string>): (r: Result<ConnectArgs>)
    ensures config.host.None? ==> r == Raised(PyException(KeyError, "'host'"))
    ensures config.host.Some? && config.username.None? ==> r == Raised(PyException(KeyError, "'username'"))
    ensures config.host.Some? && config.username.Some? ==>
              (r.Raised? <==> !Truthy(config.keyFile) && !Truthy(config.password))
    ensures r.Raised? && config.host.Some? && config.username.Some? ==>
              r.error == PyException(ValueError, "Either key_file or password must be provided")
    ensures r.Ok? ==> r.value.host == config.host.value && r.value.username == config.username.value
    ensures r.Ok? ==> r.value.port == config.port.GetOr(22) && r.value.timeout == config.timeout.GetOr(10)
    ensures r.Ok? ==> (r.value.auth.KeyFile? <==> Truthy(config.keyFile))
    ensures r.Ok? && r.value.auth.KeyFile? ==> r.value.auth.path == ExpandUser(config.keyFile.value, home)
    ensures r.Ok? && r.value.auth.Password? ==> r.value.auth.secret == config.password.value
  {
    if config.host.None? then Raised(PyException(KeyError, "'host'"))
    else if config.username.None? then Raised(PyException(KeyError, "'username'"))
    else
      var port, timeout := config.port.GetOr(22), config.timeout.GetOr(10);
      if Truthy(config.keyFile) then
        var k := config.keyFile.value;
        var path := if k[0] == '~' then ExpandUser(k, home) else k;
        Ok(ConnectArgs(config.host.value, port, config.username.value, KeyFile(path), timeout))
      else if Truthy(config.password) then
        Ok(ConnectArgs(config.host.value, port, config.username.value, Password(config.password.value), timeout))
      else
        Raised(PyException(ValueError, "Either key_file or password must be provided"))
  }

  /** A key file wins over a password given beside it. */
  lemma KeyFileBeforePassword(config: Host, home: string -> Option<string>)
    requires config.host.Some? && config.username.Some?
    requires Truthy(config.keyFile) && Truthy(config.password)
    ensures ConnectRequest(config, home).Ok? && ConnectRequest(config, home).value.auth.KeyFile?
  {
  }

  /** A key file path that does not start with '~' is used as it is. */
  lemma PlainKeyFileUnchanged(config: Host, home: string -> Option<string>)
    requires config.host.Some? && config.username.Some?
    requires Truthy(config.keyFile) && config.keyFile.value[0] != '~'
    ensures ConnectRequest(config, home).value.auth == KeyFile(config.keyFile.value)
  {
  }

  /** What `connect` returns: the request, then the oracle's connect call. */
  function ConnectOutcome(config: Host, home: string -> Option<string>,
                          dial: ConnectArgs -> Result<Client>): (r: Result<Client>)
    ensures ConnectRequest(config, home).Raised? ==> r == Raised(ConnectRequest(config, home).error)
    ensures ConnectRequest(config, home).Ok? ==> r == dial(ConnectRequest(config, home).value)
  {
    match ConnectRequest(config, home)
    case Raised(e) => Raised(e)
    case Ok(args) => dial(args)
  }

  class SshManager {
    var connections: map<string, Client>

    constructor()
      ensures connections == map[]
    {
      connections := map[];
    }

    /** `connect`: on success the client is stored under the entry's name, replacing any
        earlier client; on any failure the exception propagates and the pool is unchanged. */
    method Connect(config: Host, home: string -> Option<string>, dial: ConnectArgs -> Result<Client>)
      returns (r: Result<Client>)
      modifies this
      ensures r == ConnectOutcome(config, home, dial)
      ensures r.Ok? ==> connections == old(connections)[PoolKey(config) := r.value]
      ensures r.Raised? ==> connections == old(connections)
    {
      var request := ConnectRequest(config, home);
      if request.Raised? {
        return Raised(request.error);
      }
      r := dial(request.value);
      if r.Ok? {
        connections := connections[PoolKey(config) := r.value];
      }
    }

    /** `get_connection`: a pooled client whose probe succeeds is returned as it is; a
        client whose probe fails is dropped before reconnecting, so a failed reconnect
        leaves no entry; with no pooled client, a fresh connect under `name`. */
    method GetConnection(name: string, config: Host, probe: Client -> bool, home: string -> Option<string>,
                         dial: ConnectArgs -> Result<Client>)
      returns (r: Result<Client>)
      modifies this
      ensures name in old(connections) && probe(old(connections)[name]) ==>
                r == Ok(old(connections)[name]) && connections == old(connections)
      ensures !(name in old(connections) && probe(old(connections)[name])) ==>
                && r == ConnectOutcome(config.(name := Some(name)), home, dial)
                && (r.Ok? ==> connections == old(connections)[name := r.value])
                && (r.Raised? ==> connections == old(connections) - {name})
    {
      if name in connections {
        var client := connections[name];
        if probe(client) {
          return Ok(client);
        }
        connections := connections - {name};
      }
      r := Connect(config.(name := Some(name)), home, dial);
    }

    /** `get_ssh_client`: the pool is keyed by the entry's `name`, "unknown" when absent. */
    method GetSshClient(config: Host, probe: Client -> bool, home: string -> Option<string>,
                        dial: ConnectArgs -> Result<Client>)
      returns (r: Result<Client>)
      modifies this
      ensures PoolKey(config) in old(connections) && probe(old(connections)[PoolKey(config)]) ==>
                r == Ok(old(connections)[PoolKey(config)]) && connections == old(connections)
      ensures !(PoolKey(config) in old(connections) && probe(old(connections)[PoolKey(config)])) ==>
                && r == ConnectOutcome(config.(name := Some(PoolKey(config))), home, dial)
                && (r.Ok? ==> connections == old(connections)[PoolKey(config) := r.value])
                && (r.Raised? ==> connections == old(connections) - {PoolKey(config)})
    {
      r := GetConnection(PoolKey(config), config, probe, home, dial);
    }

    /** `close_all`: `close` is tried once on every pooled client, a failing close is only
        reported, and the pool ends empty. `attempted` lists the server names in the order
        tried; `failed` those whose close raised. */
    method CloseAll(close: Client -> bool) returns (attempted: seq<string>, failed: set<string>)
      modifies this
      ensures connections == map[]
      ensures |attempted| == |old(connections).Keys|
      ensures forall s :: s in attempted <==> s in old(connections)
      ensures forall j, k :: 0 <= j < k < |attempted| ==> attempted[j] != attempted[k]
      ensures forall s :: s in failed <==> s in old(connections) && !close(old(connections)[s])
    {
      var remaining := connections.Keys;
      attempted, failed := [], {};
      while remaining != {}
        invariant remaining <= connections.Keys
        invariant connections == old(connections)
        invariant forall s :: s in attempted <==> s in connections && s !in remaining
        invariant forall j, k :: 0 <= j < k < |attempted| ==> attempted[j] != attempted[k]
        invariant |attempted| + |remaining| == |connections.Keys|
        invariant forall s :: s in failed <==> s in attempted && !close(connections[s])
        decreases |remaining|
      {
        var s :| s in remaining;
        if !close(connections[s]) {
          failed := failed + {s};
        }
        attempted := attempted + [s];
        remaining := remaining - {s};
      }
      connections := map[];
    }
  }
}
