/** `ConcurrentChecker` (concurrent_checker.py), run sequentially. The thread pool hands
    back the services' results in completion order; that order is an input here, any
    arrangement of the services. */
module Dispatcher {
  import opened Base
  import opened Factory

  /** The UNKNOWN verdict built from the service description alone when no detector
      verdict is available: name "unknown", type "unknown" and server "local" when absent. */
  function Fallback(svc: Service, message: string): (r: CheckResult)
    ensures r.status == Unknown && r.message == message && r.details == None
    ensures r.serviceName == Some(svc.name.GetOr("unknown"))
    ensures r.serviceType == svc.serviceType.GetOr("unknown") && r.server == svc.server.GetOr("local")
  {
    CheckResult(Some(svc.name.GetOr("unknown")), svc.serviceType.GetOr("unknown"), Unknown, message,
                svc.server.GetOr("local"))
  }

  /** `_check_single_service`: build the detector and run its check; an exception from
      either step becomes an UNKNOWN fallback verdict. It never raises. */
  function CheckSingle(entries: map<string, DetectorKind>, f: DetectorFactory, env: Env,
                       custom: (string, Detector) -> Result<CheckResult>, svc: Service): (r: CheckResult)
    ensures CreateDetector(entries, f, svc).Raised? ==>
              r == Fallback(svc, "Failed to create or execute detector: " + CreateDetector(entries, f, svc).error.text)
    ensures CreateDetector(entries, f, svc).Ok? ==>
              var c := RunCheck(CreateDetector(entries, f, svc).value, env, custom);
              (c.Ok? ==> r == c.value)
              && (c.Raised? ==> r == Fallback(svc, "Failed to create or execute detector: " + c.error.text))
  {
    match CreateDetector(entries, f, svc)
    case Raised(e) => Fallback(svc, "Failed to create or execute detector: " + e.text)
    case Ok(b) =>
      match RunCheck(b, env, custom)
      case Raised(e) => Fallback(svc, "Failed to create or execute detector: " + e.text)
      case Ok(res) => res
  }

  /** A service of a built-in type whose detector could be built gets that detector's own
      verdict, never a fallback. */
  lemma BuiltInVerdictKept(entries: map<string, DetectorKind>, f: DetectorFactory, env: Env,
                           custom: (string, Detector) -> Result<CheckResult>, svc: Service)
    requires CreateDetector(entries, f, svc).Ok? && !CreateDetector(entries, f, svc).value.kind.CustomKind?
    ensures CheckSingle(entries, f, env, custom, svc) == RunCheck(CreateDetector(entries, f, svc).value, env, custom).value
  {
  }

  /** The result collected for service `i`: what its task returned, or, when an exception
      escaped the task (`escapes` holds it), the outer "Check failed with exception"
      verdict. */
  function Outcome(entries: map<string, DetectorKind>, f: DetectorFactory, env: Env,
                   custom: (string, Detector) -> Result<CheckResult>, escapes: map<nat, PyException>,
                   services: seq<Service>, i: nat): (r: CheckResult)
    requires i < |services|
    ensures i in escapes ==> r == Fallback(services[i], "Check failed with exception: " + escapes[i].text)
    ensures i !in escapes ==> r == CheckSingle(entries, f, env, custom, services[i])
  {
    if i in escapes then Fallback(services[i], "Check failed with exception: " + escapes[i].text)
    else CheckSingle(entries, f, env, custom, services[i])
  }

  /** One service's outcome depends on that service alone: changing the other services,
      or their escaped exceptions, leaves it as it is. */
  lemma FailureIsolation(entries: map<string, DetectorKind>, f: DetectorFactory, env: Env,
                         custom: (string, Detector) -> Result<CheckResult>,
                         e1: map<nat, PyException>, e2: map<nat, PyException>,
                         s1: seq<Service>, s2: seq<Service>, i: nat)
    requires i < |s1| && i < |s2| && s1[i] == s2[i]
    requires (i in e1 <==> i in e2) && (i in e1 ==> e1[i] == e2[i])
    ensures Outcome(entries, f, env, custom, e1, s1, i) == Outcome(entries, f, env, custom, e2, s2, i)
  {
  }

  predicate Distinct(s: seq<nat>) {
    forall k, l :: 0 <= k < l < |s| ==> s[k] != s[l]
  }

  /** A completion order of `n` tasks: `n` distinct task indices, each below `n`. */
  predicate IsCompletionOrder(order: seq<nat>, n: nat) {
    |order| == n && (forall k :: 0 <= k < n ==> order[k] < n) && Distinct(order)
  }

  lemma SubsetCard(a: set<nat>, b: set<nat>)
    requires a <= b
    ensures |a| <= |b|
  {
    assert b == a + (b - a);
    assert a * (b - a) == {};
  }

  /** The task indices a sequence holds. */
  function Elems(s: seq<nat>): (r: set<nat>)
    ensures forall x :: x in r <==> x in s
  {
    if s == [] then {}
    else
      assert s == s[..|s| - 1] + [s[|s| - 1]];
      Elems(s[..|s| - 1]) + {s[|s| - 1]}
  }

  lemma {:induction false} DistinctCard(s: seq<nat>)
    requires Distinct(s)
    ensures |Elems(s)| == |s|
  {
    if s != [] {
      var init, last := s[..|s| - 1], s[|s| - 1];
      assert Distinct(init);
      DistinctCard(init);
      assert last !in init;
    }
  }

  /** The task indices below `n`. */
  function Range(n: nat): (r: set<nat>)
    ensures |r| == n
    ensures forall i: nat :: i in r <==> i < n
  {
    if n == 0 then {} else Range(n - 1) + {n - 1}
  }

  /** Every task appears in a completion order: `n` distinct indices below `n` leave none
      out. */
  lemma EveryTaskCompletes(order: seq<nat>, n: nat, i: nat)
    requires IsCompletionOrder(order, n) && i < n
    ensures i in order
  {
    var seen := Elems(order);
    DistinctCard(order);
    if i !in seen {
      SubsetCard(seen, Range(n) - {i});
      assert false;
    }
  }

  /** Exactly one result per service: each service's outcome sits at exactly one position
      of the collected list. */
  lemma OneResultPerService(order: seq<nat>, n: nat, i: nat)
    requires IsCompletionOrder(order, n) && i < n
    ensures exists k :: 0 <= k < n && order[k] == i
    ensures forall k, l :: 0 <= k < n && 0 <= l < n && order[k] == i && order[l] == i ==> k == l
  {
    EveryTaskCompletes(order, n, i);
  }

  /** The checker: a pool size, 5 by default, and a factory, one with no SSH servers when
      none is given. */
  class ConcurrentChecker {
    const maxWorkers: int
    const factory: DetectorFactory

    constructor(maxWorkers: Option<int>, factory: Option<DetectorFactory>)
      ensures this.maxWorkers == maxWorkers.GetOr(5)
      ensures this.factory == factory.GetOr(NewFactory(None)) && (factory.None? ==> this.factory.hosts == map[])
    {
      this.maxWorkers := maxWorkers.GetOr(5);
      this.factory := factory.GetOr(NewFactory(None));
    }

    /** Collecting one finished task: its own result, or the fallback when an exception
        escaped it. */
    method Collect(registry: Registry, services: seq<Service>, i: nat, env: Env,
                   custom: (string, Detector) -> Result<CheckResult>, escapes: map<nat, PyException>)
      returns (r: CheckResult)
      requires i < |services|
      ensures r == Outcome(registry.entries, factory, env, custom, escapes, services, i)
    {
      if i in escapes {
        r := Fallback(services[i], "Check failed with exception: " + escapes[i].text);
      } else {
        r := CheckSingle(registry.entries, factory, env, custom, services[i]);
      }
    }

    /** `check_services`: the results are collected in completion order, one for each
        service, and each is that service's own outcome. */
    method CheckServices(registry: Registry, services: seq<Service>, order: seq<nat>, env: Env,
                         custom: (string, Detector) -> Result<CheckResult>, escapes: map<nat, PyException>)
      returns (results: seq<CheckResult>)
      requires IsCompletionOrder(order, |services|)
      ensures |results| == |services|
      ensures forall k :: 0 <= k < |results| ==>
                results[k] == Outcome(registry.entries, factory, env, custom, escapes, services, order[k])
      ensures forall i :: 0 <= i < |services| ==>
                Outcome(registry.entries, factory, env, custom, escapes, services, i) in results
    {
      results := [];
      var k := 0;
      while k < |order|
        invariant 0 <= k <= |order| && |results| == k
        invariant forall j :: 0 <= j < k ==>
                    results[j] == Outcome(registry.entries, factory, env, custom, escapes, services, order[j])
      {
        var r := Collect(registry, services, order[k], env, custom, escapes);
        results := results + [r];
        k := k + 1;
      }
      Collected(registry.entries, factory, env, custom, escapes, services, order, results);
    }
  }

  /** Results collected in a completion order hold every service's outcome. */
  lemma Collected(entries: map<string, DetectorKind>, f: DetectorFactory, env: Env,
                  custom: (string, Detector) -> Result<CheckResult>, escapes: map<nat, PyException>,
                  services: seq<Service>, order: seq<nat>, results: seq<CheckResult>)
    requires IsCompletionOrder(order, |services|) && |results| == |order|
    requires forall k :: 0 <= k < |results| ==> results[k] == Outcome(entries, f, env, custom, escapes, services, order[k])
    ensures forall i :: 0 <= i < |services| ==> Outcome(entries, f, env, custom, escapes, services, i) in results
  {
    forall i | 0 <= i < |services|
      ensures Outcome(entries, f, env, custom, escapes, services, i) in results
    {
      OneResultPerService(order, |services|, i);
      var k :| 0 <= k < |services| && order[k] == i;
      assert results[k] == Outcome(entries, f, env, custom, escapes, services, order[k]);
    }
  }
}
