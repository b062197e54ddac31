/** Counting check results by status, as the dashboard and the log summary both do. */
module Tally {
  import opened Base

  /** How many of `rs` have status `s`. */
  function CountStatus(rs: seq<CheckResult>, s: ServiceStatus): nat {
    if rs == [] then 0
    else CountStatus(rs[..|rs| - 1], s) + (if rs[|rs| - 1].status == s then 1 else 0)
  }

  /** Every result has exactly one of the three statuses, so the three counts add up to
      the number of results. */
  lemma {:induction false} CountsPartition(rs: seq<CheckResult>)
    ensures CountStatus(rs, Healthy) + CountStatus(rs, Unhealthy) + CountStatus(rs, Unknown) == |rs|
  {
    if rs != [] {
      CountsPartition(rs[..|rs| - 1]);
    }
  }

  /** A status is counted exactly when some result has it. */
  lemma {:induction false} CountPositive(rs: seq<CheckResult>, s: ServiceStatus)
    ensures CountStatus(rs, s) > 0 <==> exists r :: r in rs && r.status == s
  {
    if rs != [] {
      var init, last := rs[..|rs| - 1], rs[|rs| - 1];
      CountPositive(init, s);
      assert rs == init + [last];
      if CountStatus(init, s) > 0 {
        var r :| r in init && r.status == s;
        assert r in rs;
      }
      if last.status == s {
        assert last in rs;
      }
    }
  }

  /** Counting the results one more result extends. */
  lemma CountAppend(rs: seq<CheckResult>, r: CheckResult, s: ServiceStatus)
    ensures CountStatus(rs + [r], s) == CountStatus(rs, s) + (if r.status == s then 1 else 0)
  {
    assert (rs + [r])[..|rs|] == rs;
  }

  /** Counting one more result of a run's prefix. */
  lemma CountPrefixStep(rs: seq<CheckResult>, i: nat, s: ServiceStatus)
    requires i < |rs|
    ensures CountStatus(rs[..i + 1], s) == CountStatus(rs[..i], s) + (if rs[i].status == s then 1 else 0)
  {
    assert rs[..i + 1] == rs[..i] + [rs[i]];
    CountAppend(rs[..i], rs[i], s);
  }
}
