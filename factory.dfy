/** The detector registry (detectors/__init__.py) and `DetectorFactory`
    (detector_factory.py): a service description is turned into a detector of the
    registered kind, bound to its host entry when it names a server. */
module Factory {
  import opened Base
  import Systemd
  import Docker
  import Supervisor
  import RestApi

  /** The class a registry entry points to: one of the four built-in detectors, or a
      detector registered from outside, known by an opaque tag. */
  datatype DetectorKind = SystemdKind | RestApiKind | SupervisorKind | DockerKind | CustomKind(tag: string)

  /** A service description: its `type`, `name`, `server` and `config` entries, None when
      the entry is absent. */
  datatype Service = Service(serviceType: Option<string>, name: Option<string>, server: Option<string>,
                             config: Option<Config>)

  /** The SSH server map: host entries by server name. */
  type Hosts = map<string, Host>

  /** `DETECTOR_REGISTRY` as the package defines it. */
  function InitialRegistry(): (m: map<string, DetectorKind>)
    ensures m.Keys == {"systemd", "restapi", "supervisor", "docker"}
    ensures m["systemd"] == SystemdKind && m["restapi"] == RestApiKind
    ensures m["supervisor"] == SupervisorKind && m["docker"] == DockerKind
  {
    map["systemd" := SystemdKind, "restapi" := RestApiKind, "supervisor" := SupervisorKind,
        "docker" := DockerKind]
  }

  /** The module-global registry, changed in place by `register_detector`. */
  class Registry {
    var entries: map<string, DetectorKind>

    constructor()
      ensures entries == InitialRegistry()
    {
      entries := InitialRegistry();
    }

    /** `register_detector`: the tag now names `kind`, replacing any earlier entry; every
        other tag keeps its entry. */
    method Register(tag: string, kind: DetectorKind)
      modifies this
      ensures entries == old(entries)[tag := kind]
      ensures tag in entries && entries[tag] == kind
      ensures forall t :: t != tag ==> (t in entries <==> t in old(entries))
      ensures forall t :: t != tag && t in entries ==> entries[t] == old(entries)[t]
    {
      entries := entries[tag := kind];
    }
  }

  /** `DetectorFactory(ssh_servers_config)`: a missing server map is an empty one. */
  datatype DetectorFactory = DetectorFactory(hosts: Hosts)

  function NewFactory(given: Option<Hosts>): (f: DetectorFactory)
    ensures given.Some? ==> f.hosts == given.value
    ensures given.None? ==> f.hosts == map[]
  {
    DetectorFactory(given.GetOr(map[]))
  }

  /** A detector together with the class it was built from. */
  datatype Built = Built(kind: DetectorKind, detector: Detector)

  /** A server name is used only when it is truthy: present and not empty. */
  predicate NamesServer(svc: Service) {
    svc.server.Some? && svc.server.value != ""
  }

  /** `create_detector`. The type is checked first, then the server. */
  function CreateDetector(entries: map<string, DetectorKind>, f: DetectorFactory, svc: Service): (r: Result<Built>)
    ensures r.Raised? ==> r.error.kind == ValueError
    ensures (svc.serviceType.None? || svc.serviceType.value !in entries) ==>
              r == Raised(PyException(ValueError, "Unsupported service type: " + ShowName(svc.serviceType)))
    ensures svc.serviceType.Some? && svc.serviceType.value in entries ==>
              (r.Raised? <==> NamesServer(svc) && svc.server.value !in f.hosts)
    ensures svc.serviceType.Some? && svc.serviceType.value in entries && r.Raised? ==>
              r.error.text == "Unknown server: " + svc.server.value
    ensures r.Ok? ==> r.value.kind == entries[svc.serviceType.value]
    ensures r.Ok? ==> r.value.detector.name == svc.name && r.value.detector.config == svc.config.GetOr(map[])
    ensures r.Ok? ==> (r.value.detector.serverConfig.Some? <==> NamesServer(svc))
    ensures r.Ok? && NamesServer(svc) ==> r.value.detector.serverConfig.value == f.hosts[svc.server.value]
  {
    if svc.serviceType.None? || svc.serviceType.value !in entries then
      Raised(PyException(ValueError, "Unsupported service type: " + ShowName(svc.serviceType)))
    else if NamesServer(svc) && svc.server.value !in f.hosts then
      Raised(PyException(ValueError, "Unknown server: " + svc.server.value))
    else
      var host := if NamesServer(svc) then Some(f.hosts[svc.server.value]) else None;
      Ok(Built(entries[svc.serviceType.value], Detector(svc.name, svc.config.GetOr(map[]), host)))
  }

  /** An unknown type is reported even when the server is unknown too. */
  lemma TypeCheckedFirst(entries: map<string, DetectorKind>, f: DetectorFactory, svc: Service)
    requires svc.serviceType.Some? && svc.serviceType.value !in entries
    requires NamesServer(svc) && svc.server.value !in f.hosts
    ensures CreateDetector(entries, f, svc).error.text
              == "Unsupported service type: " + svc.serviceType.value
  {
  }

  /** A detector built for a named server reports that host entry's `name` as its server,
      "unknown" when the entry has none; one built without a server reports "local". */
  lemma BuiltServerName(entries: map<string, DetectorKind>, f: DetectorFactory, svc: Service)
    requires CreateDetector(entries, f, svc).Ok?
    ensures var d := CreateDetector(entries, f, svc).value.detector;
      && (NamesServer(svc) ==> ServerName(d) == f.hosts[svc.server.value].name.GetOr("unknown"))
      && (!NamesServer(svc) ==> ServerName(d) == "local")
  {
  }

  /** Running the built detector's `check`. The built-in detectors never raise; a
      registered detector is an oracle that may. */
  function RunCheck(b: Built, env: Env, custom: (string, Detector) -> Result<CheckResult>): (r: Result<CheckResult>)
    ensures !b.kind.CustomKind? ==> r.Ok?
    ensures b.kind.CustomKind? ==> r == custom(b.kind.tag, b.detector)
  {
    match b.kind
    case SystemdKind => Ok(Systemd.Check(b.detector, env))
    case RestApiKind => Ok(RestApi.Check(b.detector, env))
    case SupervisorKind => Ok(Supervisor.Check(b.detector, env))
    case DockerKind => Ok(Docker.Check(b.detector, env))
    case CustomKind(tag) => custom(tag, b.detector)
  }

  /** Each built-in kind reports its own service type. */
  lemma BuiltInServiceType(b: Built, env: Env, custom: (string, Detector) -> Result<CheckResult>)
    requires !b.kind.CustomKind?
    ensures var t := RunCheck(b, env, custom).value.serviceType;
      && (b.kind == SystemdKind ==> t == "systemd")
      && (b.kind == RestApiKind ==> t == "restapi")
      && (b.kind == SupervisorKind ==> t == "supervisor")
      && (b.kind == DockerKind ==> t == "docker")
  {
  }
}
