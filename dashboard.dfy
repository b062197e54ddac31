/** The dashboard's data (web_server.py): the latest results grouped by the server they
    ran on, counted per status, given a health per host and overall, with the hosts
    sorted by name. The Flask routes are not modelled; `time.time()` is the input `now`. */
module Dashboard {
  import opened Base
  import opened Tally

  /** One service as the status API lists it. */
  datatype ServiceView = ServiceView(name: Option<string>, serviceType: string, status: string,
                                     message: string, details: Details, timestamp: real)

  /** One host as the status API lists it. */
  datatype HostView = HostView(hostName: string, hostAddress: string, hostType: string,
                               services: seq<ServiceView>, healthStatus: string,
                               healthyCount: nat, unhealthyCount: nat, unknownCount: nat,
                               totalServices: nat)

  /** The status API's answer. */
  datatype StatusData = StatusData(hosts: seq<HostView>, overallStatus: string, totalServices: nat,
                                   totalHealthy: nat, totalUnhealthy: nat, totalUnknown: nat,
                                   lastCheckTime: Option<real>, currentTime: real)

  /** A host entry with no field at all: what `.get(name, {})` gives for an unlisted server. */
  const EmptyEntry := Host(None, None, None, None, None, None, None)

  /** `_get_host_config`: the SSH server map's entry for the host, an empty one when the
      host is not listed or no server map is reachable. */
  function HostConfig(hostMap: Option<map<string, Host>>, name: string): (h: Host)
    ensures hostMap.Some? && name in hostMap.value ==> h == hostMap.value[name]
    ensures !(hostMap.Some? && name in hostMap.value) ==> h == EmptyEntry
  {
    if hostMap.Some? && name in hostMap.value then hostMap.value[name] else EmptyEntry
  }

  /** `_get_host_type`: an empty entry is the local host, any other a remote one. */
  function HostType(h: Host): (t: string)
    ensures t == "本地主机" <==> h == EmptyEntry
    ensures t == "SSH远程主机" <==> h != EmptyEntry
  {
    if h == EmptyEntry then "本地主机" else "SSH远程主机"
  }

  /** The host's address, "N/A" when its entry has none. */
  function HostAddress(h: Host): string {
    h.host.GetOr("N/A")
  }

  /** A result as listed: its status by name and its details, an empty map when absent. */
  function View(r: CheckResult, now: real): ServiceView {
    ServiceView(r.serviceName, r.serviceType, r.status.Text(), r.message, r.details.GetOr(map[]), now)
  }

  function Views(rs: seq<CheckResult>, now: real): (vs: seq<ServiceView>)
    ensures |vs| == |rs| && forall k :: 0 <= k < |rs| ==> vs[k] == View(rs[k], now)
  {
    seq(|rs|, k requires 0 <= k < |rs| => View(rs[k], now))
  }

  /** The loop's update of a host's health on one more result: UNHEALTHY always wins,
      UNKNOWN turns "healthy" into "warning", HEALTHY changes nothing. */
  function Step(health: string, s: ServiceStatus): string {
    match s
    case Healthy => health
    case Unhealthy => "unhealthy"
    case Unknown => if health == "healthy" then "warning" else health
  }

  /** The health a run of results leaves, starting from "healthy". */
  function HealthOf(rs: seq<CheckResult>): string {
    if rs == [] then "healthy" else Step(HealthOf(rs[..|rs| - 1]), rs[|rs| - 1].status)
  }

  predicate AnyWith(rs: seq<CheckResult>, s: ServiceStatus) {
    exists r :: r in rs && r.status == s
  }

  /** The precedence the fold implements: "unhealthy" if any result is UNHEALTHY, else
      "warning" if any is UNKNOWN, else "healthy". */
  lemma {:induction false} HealthPrecedence(rs: seq<CheckResult>)
    ensures HealthOf(rs) == if AnyWith(rs, Unhealthy) then "unhealthy"
                            else if AnyWith(rs, Unknown) then "warning" else "healthy"
  {
    if rs != [] {
      var init, last := rs[..|rs| - 1], rs[|rs| - 1];
      HealthPrecedence(init);
      assert rs == init + [last];
      assert AnyWith(rs, Unhealthy) <==> AnyWith(init, Unhealthy) || last.status == Unhealthy;
      assert AnyWith(rs, Unknown) <==> AnyWith(init, Unknown) || last.status == Unknown;
    }
  }

  /** The health does not depend on the order of the results. */
  lemma HealthOrderFree(rs1: seq<CheckResult>, rs2: seq<CheckResult>)
    requires multiset(rs1) == multiset(rs2)
    ensures HealthOf(rs1) == HealthOf(rs2)
  {
    HealthPrecedence(rs1);
    HealthPrecedence(rs2);
    forall s ensures AnyWith(rs1, s) <==> AnyWith(rs2, s) {
      if AnyWith(rs1, s) {
        var r :| r in rs1 && r.status == s;
        assert r in multiset(rs2);
      }
      if AnyWith(rs2, s) {
        var r :| r in rs2 && r.status == s;
        assert r in multiset(rs1);
      }
    }
  }

  /** The results that ran on server `name`, in order. */
  function OnHost(rs: seq<CheckResult>, name: string): seq<CheckResult> {
    if rs == [] then []
    else OnHost(rs[..|rs| - 1], name) + (if rs[|rs| - 1].server == name then [rs[|rs| - 1]] else [])
  }

  /** The servers the results ran on. */
  function Servers(rs: seq<CheckResult>): set<string> {
    if rs == [] then {} else Servers(rs[..|rs| - 1]) + {rs[|rs| - 1].server}
  }

  lemma ServersAppend(rs: seq<CheckResult>, r: CheckResult)
    ensures Servers(rs + [r]) == Servers(rs) + {r.server}
  {
    assert (rs + [r])[..|rs|] == rs;
  }

  /** A name is among the servers exactly when some result ran on it. */
  lemma {:induction false} ServersSpec(rs: seq<CheckResult>, n: string)
    ensures n in Servers(rs) <==> exists r :: r in rs && r.server == n
  {
    if rs != [] {
      var init, last := rs[..|rs| - 1], rs[|rs| - 1];
      ServersSpec(init, n);
      assert rs == init + [last];
      if n in Servers(init) {
        var r :| r in init && r.server == n;
        assert r in rs;
      }
      if exists r :: r in rs && r.server == n {
        var r :| r in rs && r.server == n;
        if r != last {
          assert r in init;
        }
      }
    }
  }

  lemma OnHostAppend(rs: seq<CheckResult>, r: CheckResult, name: string)
    ensures OnHost(rs + [r], name) == OnHost(rs, name) + (if r.server == name then [r] else [])
  {
    assert (rs + [r])[..|rs|] == rs;
  }

  lemma {:induction false} OnHostEmpty(rs: seq<CheckResult>, name: string)
    requires name !in Servers(rs)
    ensures OnHost(rs, name) == []
  {
    if rs != [] {
      var init := rs[..|rs| - 1];
      OnHostEmpty(init, name);
    }
  }

  /** The entry for server `name` once all of `rs` is grouped. */
  function HostSpec(rs: seq<CheckResult>, name: string, cfg: Host, now: real): HostView {
    var mine := OnHost(rs, name);
    HostView(name, HostAddress(cfg), HostType(cfg), Views(mine, now), HealthOf(mine),
             CountStatus(mine, Healthy), CountStatus(mine, Unhealthy), CountStatus(mine, Unknown), |mine|)
  }

  /** A host's three counts add up to its number of services, which is its number of
      listed services. */
  lemma HostCountsAgree(rs: seq<CheckResult>, name: string, cfg: Host, now: real)
    ensures var h := HostSpec(rs, name, cfg, now);
      h.healthyCount + h.unhealthyCount + h.unknownCount == h.totalServices == |h.services|
  {
    CountsPartition(OnHost(rs, name));
  }

  /** Lexicographic order by code point, Python's `<` on strings. */
  predicate StrLess(a: string, b: string) {
    if a == [] then b != []
    else if b == [] then false
    else if a[0] == b[0] then StrLess(a[1..], b[1..])
    else a[0] < b[0]
  }

  lemma {:induction false} StrLessIrreflexive(a: string)
    ensures !StrLess(a, a)
  {
    if a != [] {
      StrLessIrreflexive(a[1..]);
    }
  }

  lemma {:induction false} StrLessTransitive(a: string, b: string, c: string)
    requires StrLess(a, b) && StrLess(b, c)
    ensures StrLess(a, c)
  {
    if a != [] && b != [] && c != [] && a[0] == b[0] && b[0] == c[0] {
      StrLessTransitive(a[1..], b[1..], c[1..]);
    }
  }

  lemma {:induction false} StrLessTotal(a: string, b: string)
    requires a != b
    ensures StrLess(a, b) || StrLess(b, a)
  {
    if a != [] && b != [] && a[0] == b[0] {
      assert a == [a[0]] + a[1..] && b == [b[0]] + b[1..];
      StrLessTotal(a[1..], b[1..]);
    }
  }

  /** Host names strictly increasing. */
  predicate Sorted(hs: seq<HostView>) {
    forall j, k :: 0 <= j < k < |hs| ==> StrLess(hs[j].hostName, hs[k].hostName)
  }

  predicate DistinctNames(hs: seq<HostView>) {
    forall j, k :: 0 <= j < k < |hs| ==> hs[j].hostName != hs[k].hostName
  }

  lemma SortedDistinct(hs: seq<HostView>)
    requires Sorted(hs)
    ensures DistinctNames(hs)
  {
    forall j, k | 0 <= j < k < |hs|
      ensures hs[j].hostName != hs[k].hostName
    {
      StrLessIrreflexive(hs[j].hostName);
    }
  }

  /** Inserts a host into a sorted list whose names differ from its own. */
  function Insert(h: HostView, s: seq<HostView>): (r: seq<HostView>)
    requires Sorted(s) && forall k :: 0 <= k < |s| ==> s[k].hostName != h.hostName
    ensures |r| == |s| + 1
    ensures forall x :: x in r <==> x == h || x in s
    ensures Sorted(r)
  {
    if s == [] then [h]
    else if StrLess(h.hostName, s[0].hostName) then
      assert forall k :: 0 < k < |s| ==> StrLess(h.hostName, s[k].hostName) by {
        forall k | 0 < k < |s| ensures StrLess(h.hostName, s[k].hostName) {
          StrLessTransitive(h.hostName, s[0].hostName, s[k].hostName);
        }
      }
      [h] + s
    else
      StrLessTotal(h.hostName, s[0].hostName);
      var rest := Insert(h, s[1..]);
      assert forall x :: x in rest ==> StrLess(s[0].hostName, x.hostName) by {
        forall x | x in rest ensures StrLess(s[0].hostName, x.hostName) {
          if x != h {
            var k :| 0 <= k < |s[1..]| && s[1..][k] == x;
            assert s[k + 1] == x;
          }
        }
      }
      assert s == [s[0]] + s[1..];
      [s[0]] + rest
  }

  /** `hosts_list.sort(key=lambda x: x['host_name'])` on hosts with distinct names: the
      same hosts, strictly increasing by name. */
  function SortHosts(a: seq<HostView>): (r: seq<HostView>)
    requires DistinctNames(a)
    ensures |r| == |a|
    ensures forall x :: x in r <==> x in a
    ensures Sorted(r)
  {
    if a == [] then []
    else
      var init := a[..|a| - 1];
      var sorted := SortHosts(init);
      assert forall k :: 0 <= k < |sorted| ==> sorted[k].hostName != a[|a| - 1].hostName by {
        forall k | 0 <= k < |sorted| ensures sorted[k].hostName != a[|a| - 1].hostName {
          assert sorted[k] in init;
        }
      }
      assert a == init + [a[|a| - 1]];
      Insert(a[|a| - 1], sorted)
  }

  /** A host's count for one status. */
  function CountOf(h: HostView, s: ServiceStatus): nat {
    match s
    case Healthy => h.healthyCount
    case Unhealthy => h.unhealthyCount
    case Unknown => h.unknownCount
  }

  /** `sum(host[...] for host in hosts_list)`. */
  function SumCounts(hs: seq<HostView>, s: ServiceStatus): nat {
    if hs == [] then 0 else CountOf(hs[0], s) + SumCounts(hs[1..], s)
  }

  /** The results of one status, counted host by host over the names `ns`. */
  function SumOver(ns: seq<string>, rs: seq<CheckResult>, s: ServiceStatus): nat {
    if ns == [] then 0 else CountStatus(OnHost(rs, ns[0]), s) + SumOver(ns[1..], rs, s)
  }

  /** How often `x` occurs in `ns`. */
  function Occurrences(ns: seq<string>, x: string): nat {
    if ns == [] then 0 else (if ns[0] == x then 1 else 0) + Occurrences(ns[1..], x)
  }

  lemma {:induction false} OccursOnce(ns: seq<string>, x: string)
    requires forall j, k :: 0 <= j < k < |ns| ==> ns[j] != ns[k]
    requires x in ns
    ensures Occurrences(ns, x) == 1
  {
    if ns[0] == x {
      OccursNot(ns[1..], x);
    } else {
      OccursOnce(ns[1..], x);
    }
  }

  lemma {:induction false} OccursNot(ns: seq<string>, x: string)
    requires x !in ns
    ensures Occurrences(ns, x) == 0
  {
    if ns != [] {
      OccursNot(ns[1..], x);
    }
  }

  lemma {:induction false} SumOverAppend(ns: seq<string>, rs: seq<CheckResult>, r: CheckResult, s: ServiceStatus)
    ensures SumOver(ns, rs + [r], s) == SumOver(ns, rs, s) + (if r.status == s then Occurrences(ns, r.server) else 0)
  {
    if ns != [] {
      SumOverAppend(ns[1..], rs, r, s);
      OnHostAppend(rs, r, ns[0]);
      if r.server == ns[0] {
        CountAppend(OnHost(rs, ns[0]), r, s);
      } else {
        assert OnHost(rs + [r], ns[0]) == OnHost(rs, ns[0]) + [] == OnHost(rs, ns[0]);
      }
    }
  }

  /** Grouping by server loses and duplicates nothing: summing one status's count over
      distinct names that include every server gives that status's count. */
  lemma {:induction false} PartitionSum(ns: seq<string>, rs: seq<CheckResult>, s: ServiceStatus)
    requires forall j, k :: 0 <= j < k < |ns| ==> ns[j] != ns[k]
    requires forall r :: r in rs ==> r.server in ns
    ensures SumOver(ns, rs, s) == CountStatus(rs, s)
  {
    if rs == [] {
      SumOverEmpty(ns, s);
    } else {
      var init, last := rs[..|rs| - 1], rs[|rs| - 1];
      assert rs == init + [last];
      PartitionSum(ns, init, s);
      SumOverAppend(ns, init, last, s);
      CountAppend(init, last, s);
      OccursOnce(ns, last.server);
    }
  }

  lemma {:induction false} SumOverEmpty(ns: seq<string>, s: ServiceStatus)
    ensures SumOver(ns, [], s) == 0
  {
    if ns != [] {
      SumOverEmpty(ns[1..], s);
    }
  }

  function NameSeq(hs: seq<HostView>): (ns: seq<string>)
    ensures |ns| == |hs| && forall k :: 0 <= k < |hs| ==> ns[k] == hs[k].hostName
  {
    seq(|hs|, k requires 0 <= k < |hs| => hs[k].hostName)
  }

  /** The hosts' own counts sum to the counts over their names. */
  lemma {:induction false} SumCountsOver(hs: seq<HostView>, rs: seq<CheckResult>, hostMap: Option<map<string, Host>>,
                                         now: real, s: ServiceStatus)
    requires forall k :: 0 <= k < |hs| ==> hs[k] == HostSpec(rs, hs[k].hostName, HostConfig(hostMap, hs[k].hostName), now)
    ensures SumCounts(hs, s) == SumOver(NameSeq(hs), rs, s)
  {
    if hs != [] {
      assert NameSeq(hs)[1..] == NameSeq(hs[1..]);
      SumCountsOver(hs[1..], rs, hostMap, now, s);
    }
  }

  /** `overall_status` from the totals. */
  function Overall(totalUnhealthy: nat, totalUnknown: nat): string {
    if totalUnhealthy != 0 then "unhealthy" else if totalUnknown > 0 then "warning" else "healthy"
  }

  /** The overall status follows the same precedence as a host's: it is the health of all
      the results taken together. */
  lemma OverallIsHealthOfAll(rs: seq<CheckResult>)
    ensures Overall(CountStatus(rs, Unhealthy), CountStatus(rs, Unknown)) == HealthOf(rs)
  {
    HealthPrecedence(rs);
    CountPositive(rs, Unhealthy);
    CountPositive(rs, Unknown);
  }

  /** Every entry of `hosts` is its server's entry for the run `rs`. */
  ghost predicate EntriesMatch(rs: seq<CheckResult>, hostMap: Option<map<string, Host>>, now: real,
                               hosts: map<string, HostView>)
  {
    forall n :: n in hosts ==> hosts[n] == HostSpec(rs, n, HostConfig(hostMap, n), now)
  }

  /** `names` lists the keys of `hosts`, each once. */
  ghost predicate ListsKeys(names: seq<string>, hosts: map<string, HostView>) {
    && (forall n :: n in names <==> n in hosts)
    && (forall j, k :: 0 <= j < k < |names| ==> names[j] != names[k])
  }

  /** `hosts` holds, for every server of `rs`, that server's entry; `names` lists the
      servers once each, in the order the grouping met them. */
  ghost predicate Grouped(rs: seq<CheckResult>, hostMap: Option<map<string, Host>>, now: real,
                          hosts: map<string, HostView>, names: seq<string>)
  {
    hosts.Keys == Servers(rs) && ListsKeys(names, hosts) && EntriesMatch(rs, hostMap, now, hosts)
  }

  /** The grouping loop of `_format_status_data`: an entry is opened for a server the
      first time one of its results is met, then each result is appended to its server's
      entry, counted, and folded into that entry's health. */
  method GroupByServer(results: seq<CheckResult>, hostMap: Option<map<string, Host>>, now: real)
    returns (hosts: map<string, HostView>, names: seq<string>)
    ensures Grouped(results, hostMap, now, hosts, names)
  {
    hosts, names := map[], [];
    var i := 0;
    GroupedNone(results, hostMap, now);
    while i < |results|
      invariant 0 <= i <= |results|
      invariant Grouped(results[..i], hostMap, now, hosts, names)
    {
      SliceStep(results, i);
      hosts, names := Place(results[..i], results[i], results[..i + 1], hostMap, now, hosts, names);
      i := i + 1;
    }
    SliceAll(results);
  }

  /** Before the loop nothing is grouped. */
  lemma GroupedNone(results: seq<CheckResult>, hostMap: Option<map<string, Host>>, now: real)
    ensures Grouped(results[..0], hostMap, now, map[], [])
  {
    assert results[..0] == [];
  }

  lemma SliceAll(s: seq<CheckResult>)
    ensures s[..|s|] == s
  {
  }

  lemma SliceStep(s: seq<CheckResult>, i: nat)
    requires i < |s|
    ensures s[..i + 1] == s[..i] + [s[i]]
  {
  }

  /** What the grouping so far says about one server: it has an entry iff it has results,
      and that entry is its specification. */
  lemma GroupedEntry(rs: seq<CheckResult>, hostMap: Option<map<string, Host>>, now: real,
                     hosts: map<string, HostView>, names: seq<string>, n: string)
    requires Grouped(rs, hostMap, now, hosts, names)
    ensures n in hosts <==> n in Servers(rs)
    ensures n in hosts ==> hosts[n] == HostSpec(rs, n, HostConfig(hostMap, n), now)
  {
  }

  /** The entry opened for a server not met before is its specification: no services,
      'healthy', all counts zero. */
  lemma FreshEntry(rs: seq<CheckResult>, name: string, cfg: Host, now: real)
    requires name !in Servers(rs)
    ensures HostSpec(rs, name, cfg, now) == HostView(name, HostAddress(cfg), HostType(cfg), [], "healthy", 0, 0, 0, 0)
  {
    OnHostEmpty(rs, name);
  }

  /** One iteration of the grouping loop: the result's server gets an entry if it has none
      yet, and that entry absorbs the result. */
  method Place(rs: seq<CheckResult>, r: CheckResult, rs2: seq<CheckResult>, hostMap: Option<map<string, Host>>,
               now: real, hosts0: map<string, HostView>, names0: seq<string>)
    returns (hosts: map<string, HostView>, names: seq<string>)
    requires Grouped(rs, hostMap, now, hosts0, names0) && rs2 == rs + [r]
    ensures Grouped(rs2, hostMap, now, hosts, names)
  {
    var name := r.server;
    var h: HostView;
    names := names0;
    GroupedEntry(rs, hostMap, now, hosts0, names0, name);
    if name in hosts0 {
      h := hosts0[name];
    } else {
      var cfg := HostConfig(hostMap, name);
      FreshEntry(rs, name, cfg, now);
      h := HostView(name, HostAddress(cfg), HostType(cfg), [], "healthy", 0, 0, 0, 0);
      names := names0 + [name];
    }
    var h0 := h;
    h := Absorb(r, now, h0);
    GroupStep(rs, r, name, HostConfig(hostMap, name), now);
    ExtendsUnique(h0, r, now, h, HostSpec(rs2, name, HostConfig(hostMap, name), now));
    GroupedPut(rs, r, rs2, hostMap, now, hosts0, names0, names, h);
    hosts := hosts0[name := h];
  }

  /** What one pass of the loop body does to a host entry for result `r`: the result is
      listed and counted under its status, and the entry's health takes one `Step`. */
  predicate Extends(a: HostView, r: CheckResult, now: real, b: HostView) {
    && b.hostName == a.hostName && b.hostAddress == a.hostAddress && b.hostType == a.hostType
    && b.services == a.services + [View(r, now)] && b.totalServices == a.totalServices + 1
    && b.healthyCount == a.healthyCount + (if r.status == Healthy then 1 else 0)
    && b.unhealthyCount == a.unhealthyCount + (if r.status == Unhealthy then 1 else 0)
    && b.unknownCount == a.unknownCount + (if r.status == Unknown then 1 else 0)
    && b.healthStatus == Step(a.healthStatus, r.status)
  }

  /** An entry has one extension by a given result. */
  lemma ExtendsUnique(a: HostView, r: CheckResult, now: real, b1: HostView, b2: HostView)
    requires Extends(a, r, now, b1) && Extends(a, r, now, b2)
    ensures b1 == b2
  {
  }

  /** The loop body's update of one host entry: the result is listed, counted under its
      status, and folded into the entry's health. */
  method Absorb(r: CheckResult, now: real, h0: HostView) returns (h: HostView)
    ensures Extends(h0, r, now, h)
  {
    h := h0.(services := h0.services + [View(r, now)], totalServices := h0.totalServices + 1);
    if r.status == Healthy {
      h := h.(healthyCount := h.healthyCount + 1);
    } else if r.status == Unhealthy {
      h := h.(unhealthyCount := h.unhealthyCount + 1, healthStatus := "unhealthy");
    } else {
      h := h.(unknownCount := h.unknownCount + 1);
      if h.healthStatus == "healthy" {
        h := h.(healthStatus := "warning");
      }
    }
  }

  /** Storing a server's extended entry keeps the grouping exact: its name is listed
      once, and every other server's entry already covers the longer run. */
  lemma GroupedPut(rs: seq<CheckResult>, r: CheckResult, rs2: seq<CheckResult>, hostMap: Option<map<string, Host>>, now: real,
                   hosts: map<string, HostView>, names: seq<string>, names2: seq<string>, h: HostView)
    requires Grouped(rs, hostMap, now, hosts, names)
    requires names2 == if r.server in hosts then names else names + [r.server]
    requires rs2 == rs + [r] && h == HostSpec(rs2, r.server, HostConfig(hostMap, r.server), now)
    ensures Grouped(rs2, hostMap, now, hosts[r.server := h], names2)
  {
    ServersAppend(rs, r);
    KeysPut(hosts, r.server, h);
    ListsKeysPut(names, hosts, r.server, h, names2);
    EntriesPut(rs, r, rs2, hostMap, now, hosts, h);
  }

  lemma KeysPut(hosts: map<string, HostView>, name: string, h: HostView)
    ensures hosts[name := h].Keys == hosts.Keys + {name}
  {
  }

  lemma ListsKeysPut(names: seq<string>, hosts: map<string, HostView>, name: string, h: HostView, names2: seq<string>)
    requires ListsKeys(names, hosts)
    requires names2 == if name in hosts then names else names + [name]
    ensures ListsKeys(names2, hosts[name := h])
  {
  }

  /** A result for one server leaves every other server's entry as it was. */
  lemma EntriesPut(rs: seq<CheckResult>, r: CheckResult, rs2: seq<CheckResult>, hostMap: Option<map<string, Host>>,
                   now: real, hosts: map<string, HostView>, h: HostView)
    requires EntriesMatch(rs, hostMap, now, hosts)
    requires rs2 == rs + [r] && h == HostSpec(rs2, r.server, HostConfig(hostMap, r.server), now)
    ensures EntriesMatch(rs2, hostMap, now, hosts[r.server := h])
  {
    forall n | n in hosts[r.server := h]
      ensures hosts[r.server := h][n] == HostSpec(rs2, n, HostConfig(hostMap, n), now)
    {
      if n != r.server {
        OnHostAppend(rs, r, n);
        assert OnHost(rs2, n) == OnHost(rs, n) + [] == OnHost(rs, n);
      }
    }
  }

  /** `list(hosts_data.values())`: the entries in the order their servers were met. */
  function Listing(hosts: map<string, HostView>, names: seq<string>): (hs: seq<HostView>)
    requires forall n :: n in names ==> n in hosts
    ensures |hs| == |names| && forall k :: 0 <= k < |names| ==> hs[k] == hosts[names[k]]
  {
    seq(|names|, k requires 0 <= k < |names| => hosts[names[k]])
  }

  /** Grouped entries are named after their servers, so the listing's names are distinct. */
  lemma ListingNames(rs: seq<CheckResult>, hostMap: Option<map<string, Host>>, now: real,
                     hosts: map<string, HostView>, names: seq<string>)
    requires Grouped(rs, hostMap, now, hosts, names)
    ensures NameSeq(Listing(hosts, names)) == names
    ensures DistinctNames(Listing(hosts, names))
  {
    assert NameSeq(Listing(hosts, names)) == names;
  }

  /** Sorting the grouped entries: the sorted list covers exactly the servers of `rs`,
      each entry is its server's, and its per-status counts add up to the counts over all
      of `rs`. */
  lemma SortedListing(rs: seq<CheckResult>, hostMap: Option<map<string, Host>>, now: real,
                      hosts: map<string, HostView>, names: seq<string>, sorted: seq<HostView>)
    requires Grouped(rs, hostMap, now, hosts, names)
    requires Sorted(sorted) && forall x :: x in sorted <==> x in Listing(hosts, names)
    ensures forall k :: 0 <= k < |sorted| ==>
              sorted[k] == HostSpec(rs, sorted[k].hostName, HostConfig(hostMap, sorted[k].hostName), now)
    ensures forall n :: n in Servers(rs) <==> n in NameSeq(sorted)
    ensures forall s :: SumCounts(sorted, s) == CountStatus(rs, s)
  {
    SortedEntries(rs, hostMap, now, hosts, names, sorted);
    SortedNames(rs, hostMap, now, hosts, names, sorted);
    forall s ensures SumCounts(sorted, s) == CountStatus(rs, s) {
      SortedSums(rs, hostMap, now, sorted, s);
    }
  }

  /** Each sorted entry is its server's specification. */
  lemma SortedEntries(rs: seq<CheckResult>, hostMap: Option<map<string, Host>>, now: real,
                      hosts: map<string, HostView>, names: seq<string>, sorted: seq<HostView>)
    requires Grouped(rs, hostMap, now, hosts, names)
    requires forall x :: x in sorted <==> x in Listing(hosts, names)
    ensures forall k :: 0 <= k < |sorted| ==>
              sorted[k] == HostSpec(rs, sorted[k].hostName, HostConfig(hostMap, sorted[k].hostName), now)
  {
    var list := Listing(hosts, names);
    forall k | 0 <= k < |sorted|
      ensures sorted[k] == HostSpec(rs, sorted[k].hostName, HostConfig(hostMap, sorted[k].hostName), now)
    {
      assert sorted[k] in list;
    }
  }

  /** The sorted list names exactly the servers of `rs`. */
  lemma SortedNames(rs: seq<CheckResult>, hostMap: Option<map<string, Host>>, now: real,
                    hosts: map<string, HostView>, names: seq<string>, sorted: seq<HostView>)
    requires Grouped(rs, hostMap, now, hosts, names)
    requires forall x :: x in sorted <==> x in Listing(hosts, names)
    ensures forall n :: n in Servers(rs) <==> n in NameSeq(sorted)
  {
    var list := Listing(hosts, names);
    ListingNames(rs, hostMap, now, hosts, names);
    forall n ensures n in Servers(rs) <==> n in NameSeq(sorted) {
      if n in NameSeq(sorted) {
        var k :| 0 <= k < |sorted| && sorted[k].hostName == n;
        assert sorted[k] in list;
      }
      if n in names {
        var k :| 0 <= k < |names| && names[k] == n;
        assert list[k] in sorted;
      }
    }
  }

  /** Summing one status over a sorted list of the servers' entries counts it over `rs`. */
  lemma SortedSums(rs: seq<CheckResult>, hostMap: Option<map<string, Host>>, now: real,
                   sorted: seq<HostView>, s: ServiceStatus)
    requires Sorted(sorted)
    requires forall k :: 0 <= k < |sorted| ==>
               sorted[k] == HostSpec(rs, sorted[k].hostName, HostConfig(hostMap, sorted[k].hostName), now)
    requires forall n :: n in Servers(rs) <==> n in NameSeq(sorted)
    ensures SumCounts(sorted, s) == CountStatus(rs, s)
  {
    SortedDistinct(sorted);
    forall r | r in rs ensures r.server in NameSeq(sorted) {
      ServersSpec(rs, r.server);
    }
    SumCountsOver(sorted, rs, hostMap, now, s);
    PartitionSum(NameSeq(sorted), rs, s);
  }

  class WebServer {
    var lastResults: seq<CheckResult>
    var lastCheckTime: Option<real>
    /** The SSH server map reachable through the monitor's factory, None when there is no
        monitor. */
    const hostMap: Option<map<string, Host>>

    constructor(hostMap: Option<map<string, Host>>)
      ensures lastResults == [] && lastCheckTime == None && this.hostMap == hostMap
    {
      lastResults := [];
      lastCheckTime := None;
      this.hostMap := hostMap;
    }

    /** `update_results`: the new results replace the old ones wholesale. */
    method UpdateResults(results: seq<CheckResult>, now: real)
      modifies this
      ensures lastResults == results && lastCheckTime == Some(now)
    {
      lastResults := results;
      lastCheckTime := Some(now);
    }

    /** `_format_status_data`. With no results: no hosts, overall "unknown", zero totals.
        Otherwise one entry per server, sorted by name, each grouping exactly that
        server's results; the totals are the status counts over all results and the
        overall status is their health. */
    method FormatStatusData(now: real) returns (data: StatusData)
      ensures lastResults == [] ==> data == StatusData([], "unknown", 0, 0, 0, 0, lastCheckTime, now)
      ensures lastResults != [] ==>
                && Sorted(data.hosts)
                && (forall k :: 0 <= k < |data.hosts| ==>
                      data.hosts[k] == HostSpec(lastResults, data.hosts[k].hostName,
                                                HostConfig(hostMap, data.hosts[k].hostName), now))
                && (forall n :: n in Servers(lastResults) <==> n in NameSeq(data.hosts))
                && data.totalServices == |lastResults|
                && data.totalHealthy == CountStatus(lastResults, Healthy)
                && data.totalUnhealthy == CountStatus(lastResults, Unhealthy)
                && data.totalUnknown == CountStatus(lastResults, Unknown)
                && data.overallStatus == HealthOf(lastResults)
                && data.lastCheckTime == lastCheckTime && data.currentTime == now
    {
      if lastResults == [] {
        return StatusData([], "unknown", 0, 0, 0, 0, lastCheckTime, now);
      }
      var results := lastResults;
      var hosts, names := GroupByServer(results, hostMap, now);
      var list := Listing(hosts, names);
      ListingNames(results, hostMap, now, hosts, names);
      var sorted := SortHosts(list);
      SortedListing(results, hostMap, now, hosts, names, sorted);
      var totalHealthy := SumCounts(sorted, Healthy);
      var totalUnhealthy := SumCounts(sorted, Unhealthy);
      var totalUnknown := SumCounts(sorted, Unknown);
      OverallIsHealthOfAll(results);
      data := StatusData(sorted, Overall(totalUnhealthy, totalUnknown), |results|, totalHealthy, totalUnhealthy,
                         totalUnknown, lastCheckTime, now);
    }
  }

  /** One more result for server `name` extends that server's entry the way the loop
      body does. */
  lemma GroupStep(rs: seq<CheckResult>, r: CheckResult, name: string, cfg: Host, now: real)
    requires r.server == name
    ensures Extends(HostSpec(rs, name, cfg, now), r, now, HostSpec(rs + [r], name, cfg, now))
  {
    var mine := OnHost(rs, name);
    OnHostAppend(rs, r, name);
    assert OnHost(rs + [r], name) == mine + [r];
    HealthAppend(mine, r);
    CountAppend(mine, r, Healthy);
    CountAppend(mine, r, Unhealthy);
    CountAppend(mine, r, Unknown);
    ViewsAppend(mine, r, now);
  }

  lemma HealthAppend(rs: seq<CheckResult>, r: CheckResult)
    ensures HealthOf(rs + [r]) == Step(HealthOf(rs), r.status)
  {
    assert (rs + [r])[..|rs|] == rs;
  }

  lemma ViewsAppend(rs: seq<CheckResult>, r: CheckResult, now: real)
    ensures Views(rs + [r], now) == Views(rs, now) + [View(r, now)]
  {
  }
}
