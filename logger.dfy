/** `LogManager.log_results` (logger.py): one line per result at a level chosen by its
    status, one summary line, and an alert when any service is unhealthy. The emitted
    records are kept in a list; handlers, formatting and timestamps are not modelled. */
module Logger {
  import opened PyStr
  import opened Base
  import opened Tally

  datatype Level = Info | Warning | Error

  datatype LogRecord = LogRecord(level: Level, text: string)

  /** The level a result is logged at: info for HEALTHY, error for UNHEALTHY, warning
      for anything else. */
  function LevelOf(s: ServiceStatus): Level {
    match s
    case Healthy => Info
    case Unhealthy => Error
    case Unknown => Warning
  }

  /** The line logged for one result: a status mark, then server, name, type and message. */
  function ResultRecord(r: CheckResult): (rec: LogRecord)
    ensures rec.level == LevelOf(r.status)
  {
    var mark := match r.status
      case Healthy => "✅ "
      case Unhealthy => "❌ "
      case Unknown => "⚠️ ";
    LogRecord(LevelOf(r.status), mark + r.server + " " + ShowName(r.serviceName) + " (" + r.serviceType + "): " + r.message)
  }

  function SummaryRecord(healthy: nat, unhealthy: nat, unknown: nat, total: nat): LogRecord {
    LogRecord(Info, "检测完成: 健康 " + ShowNat(healthy) + ", 异常 " + ShowNat(unhealthy) + ", 未知 " + ShowNat(unknown)
                    + ", 总计 " + ShowNat(total))
  }

  function AlertRecord(unhealthy: nat): LogRecord {
    LogRecord(Error, "发现 " + ShowNat(unhealthy) + " 个异常服务，请及时处理！")
  }

  /** The records of the per-result loop: one for each result, in order. */
  function ResultRecords(results: seq<CheckResult>): (recs: seq<LogRecord>)
    ensures |recs| == |results| && forall k :: 0 <= k < |results| ==> recs[k] == ResultRecord(results[k])
  {
    seq(|results|, k requires 0 <= k < |results| => ResultRecord(results[k]))
  }

  /** The loop's records grow by one record per result. */
  lemma ResultRecordsStep(before: seq<LogRecord>, results: seq<CheckResult>, i: nat)
    requires i < |results|
    ensures before + ResultRecords(results[..i + 1]) == before + ResultRecords(results[..i]) + [ResultRecord(results[i])]
  {
    assert ResultRecords(results[..i + 1]) == ResultRecords(results[..i]) + [ResultRecord(results[i])];
  }

  /** Everything one call logs, in order. */
  function Emitted(results: seq<CheckResult>): (recs: seq<LogRecord>)
    ensures |recs| == |results| + 1 + (if CountStatus(results, Unhealthy) > 0 then 1 else 0)
    ensures forall k :: 0 <= k < |results| ==> recs[k] == ResultRecord(results[k])
    ensures recs[|results|] == SummaryRecord(CountStatus(results, Healthy), CountStatus(results, Unhealthy),
                                             CountStatus(results, Unknown), |results|)
  {
    var perResult := ResultRecords(results);
    var summary := SummaryRecord(CountStatus(results, Healthy), CountStatus(results, Unhealthy),
                                 CountStatus(results, Unknown), |results|);
    var unhealthy := CountStatus(results, Unhealthy);
    perResult + [summary] + (if unhealthy > 0 then [AlertRecord(unhealthy)] else [])
  }

  /** The alert is logged exactly when some result is UNHEALTHY. */
  lemma AlertIffUnhealthy(results: seq<CheckResult>)
    ensures |Emitted(results)| == |results| + 2 <==> exists r :: r in results && r.status == Unhealthy
    ensures |Emitted(results)| == |results| + 2 ==>
              Emitted(results)[|results| + 1] == AlertRecord(CountStatus(results, Unhealthy))
  {
    CountPositive(results, Unhealthy);
  }

  /** How many of `recs` are at level `l`. */
  function CountLevel(recs: seq<LogRecord>, l: Level): nat {
    if recs == [] then 0
    else CountLevel(recs[..|recs| - 1], l) + (if recs[|recs| - 1].level == l then 1 else 0)
  }

  lemma {:induction false} PerResultLevels(results: seq<CheckResult>, s: ServiceStatus)
    ensures CountLevel(ResultRecords(results), LevelOf(s))
              == CountStatus(results, s)
  {
    if results != [] {
      var init := results[..|results| - 1];
      PerResultLevels(init, s);
      var recs := ResultRecords(results);
      assert recs[..|recs| - 1] == ResultRecords(init);
      assert LevelOf(results[|results| - 1].status) == LevelOf(s) <==> results[|results| - 1].status == s;
    }
  }

  lemma CountLevelAppend(a: seq<LogRecord>, b: seq<LogRecord>, l: Level)
    ensures CountLevel(a + b, l) == CountLevel(a, l) + CountLevel(b, l)
    decreases |b|
  {
    if b != [] {
      assert (a + b)[..|a + b| - 1] == a + b[..|b| - 1];
      CountLevelAppend(a, b[..|b| - 1], l);
    } else {
      assert a + b == a;
    }
  }

  /** Each result is logged once at its own level: as many info records as healthy
      results plus the summary, as many warnings as unknown results, and as many errors as
      unhealthy results plus the alert when there is one. */
  lemma EmittedLevels(results: seq<CheckResult>)
    ensures CountLevel(Emitted(results), Info) == CountStatus(results, Healthy) + 1
    ensures CountLevel(Emitted(results), Warning) == CountStatus(results, Unknown)
    ensures CountLevel(Emitted(results), Error)
              == CountStatus(results, Unhealthy) + (if CountStatus(results, Unhealthy) > 0 then 1 else 0)
  {
    var perResult := ResultRecords(results);
    var summary := SummaryRecord(CountStatus(results, Healthy), CountStatus(results, Unhealthy),
                                 CountStatus(results, Unknown), |results|);
    var unhealthy := CountStatus(results, Unhealthy);
    var alert: seq<LogRecord> := if unhealthy > 0 then [AlertRecord(unhealthy)] else [];
    assert Emitted(results) == perResult + [summary] + alert;
    PerResultLevels(results, Healthy);
    PerResultLevels(results, Unhealthy);
    PerResultLevels(results, Unknown);
    forall l: Level
      ensures CountLevel(Emitted(results), l) == CountLevel(perResult, l) + CountLevel([summary], l) + CountLevel(alert, l)
    {
      CountLevelAppend(perResult + [summary], alert, l);
      CountLevelAppend(perResult, [summary], l);
    }
    assert [summary][..0] == [];
    if unhealthy > 0 {
      assert alert[..0] == [];
    }
  }

  /** After the per-result records come the summary and, when some result is UNHEALTHY,
      the alert. */
  lemma LogTail(before: seq<LogRecord>, results: seq<CheckResult>)
    ensures var u := CountStatus(results, Unhealthy);
      var summary := SummaryRecord(CountStatus(results, Healthy), u, CountStatus(results, Unknown), |results|);
      && (u > 0 ==> before + ResultRecords(results) + [summary] + [AlertRecord(u)] == before + Emitted(results))
      && (u == 0 ==> before + ResultRecords(results) + [summary] == before + Emitted(results))
  {
    var u := CountStatus(results, Unhealthy);
    var summary := SummaryRecord(CountStatus(results, Healthy), u, CountStatus(results, Unknown), |results|);
    EmittedShape(results);
    if u > 0 {
      Regroup(before, ResultRecords(results), [summary], [AlertRecord(u)]);
    } else {
      Regroup(before, ResultRecords(results), [summary], []);
    }
  }

  /** `Emitted` is the per-result records, the summary, then the alert if any. */
  lemma EmittedShape(results: seq<CheckResult>)
    ensures var u := CountStatus(results, Unhealthy);
      var summary := SummaryRecord(CountStatus(results, Healthy), u, CountStatus(results, Unknown), |results|);
      Emitted(results) == ResultRecords(results) + [summary] + (if u > 0 then [AlertRecord(u)] else [])
  {
  }

  lemma Regroup(a: seq<LogRecord>, b: seq<LogRecord>, c: seq<LogRecord>, d: seq<LogRecord>)
    ensures a + b + c + d == a + (b + c + d)
    ensures d == [] ==> a + b + c == a + (b + c + d)
  {
  }

  class LogManager {
    var records: seq<LogRecord>

    constructor()
      ensures records == []
    {
      records := [];
    }

    /** `log_results`: the three counters are kept in the loop, the summary and the alert
        follow it. */
    method LogResults(results: seq<CheckResult>)
      modifies this
      ensures records == old(records) + Emitted(results)
    {
      var healthy, unhealthy, unknown := 0, 0, 0;
      var i := 0;
      while i < |results|
        invariant 0 <= i <= |results|
        invariant healthy == CountStatus(results[..i], Healthy)
        invariant unhealthy == CountStatus(results[..i], Unhealthy)
        invariant unknown == CountStatus(results[..i], Unknown)
        invariant records == old(records) + ResultRecords(results[..i])
      {
        var r := results[i];
        CountPrefixStep(results, i, Healthy);
        CountPrefixStep(results, i, Unhealthy);
        CountPrefixStep(results, i, Unknown);
        ResultRecordsStep(old(records), results, i);
        if r.status == Healthy {
          healthy := healthy + 1;
        } else if r.status == Unhealthy {
          unhealthy := unhealthy + 1;
        } else {
          unknown := unknown + 1;
        }
        records := records + [ResultRecord(r)];
        i := i + 1;
      }
      assert results[..i] == results;
      LogTail(old(records), results);
      records := records + [SummaryRecord(healthy, unhealthy, unknown, |results|)];
      if unhealthy > 0 {
        records := records + [AlertRecord(unhealthy)];
      }
    }
  }
}
