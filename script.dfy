/** The dashboard page's pure helpers (static/js/script.js): HTML escaping, the host
    health score and its colour, the status and icon lookups, and the service details
    badge row. The DOM, fetch, toasts and timers are not modelled. */
module Frontend {
  import opened Base
  import opened PyStr

  /** `s.replace(/c/g, rep)`: every occurrence of `c` replaced by `rep`. */
  function ReplaceAll(s: string, c: char, rep: string): string {
    if s == [] then [] else (if s[0] == c then rep else [s[0]]) + ReplaceAll(s[1..], c, rep)
  }

  lemma {:induction false} ReplaceAllAppend(a: string, b: string, c: char, rep: string)
    ensures ReplaceAll(a + b, c, rep) == ReplaceAll(a, c, rep) + ReplaceAll(b, c, rep)
  {
    if a == [] {
      assert a + b == b;
    } else {
      assert (a + b)[1..] == a[1..] + b;
      ReplaceAllAppend(a[1..], b, c, rep);
    }
  }

  /** Replacing a character the text does not hold changes nothing. */
  lemma {:induction false} ReplaceAllAbsent(s: string, c: char, rep: string)
    requires c !in s
    ensures ReplaceAll(s, c, rep) == s
  {
    if s != [] {
      ReplaceAllAbsent(s[1..], c, rep);
      assert s == [s[0]] + s[1..];
    }
  }

  /** The five replacements of `escapeHtml`, '&' first. */
  function ReplaceChain(s: string): string {
    var amp := ReplaceAll(s, '&', "&amp;");
    var lt := ReplaceAll(amp, '<', "&lt;");
    var gt := ReplaceAll(lt, '>', "&gt;");
    var quot := ReplaceAll(gt, '"', "&quot;");
    ReplaceAll(quot, '\'', "&#039;")
  }

  /** The chunk one input character becomes. */
  function EscapeChar(c: char): (e: string)
    ensures |e| >= 1
    ensures e == [c] <==> c !in "&<>\"'"
  {
    if c == '&' then "&amp;"
    else if c == '<' then "&lt;"
    else if c == '>' then "&gt;"
    else if c == '"' then "&quot;"
    else if c == '\'' then "&#039;"
    else [c]
  }

  function EscapeEach(s: string): string {
    if s == [] then [] else EscapeChar(s[0]) + EscapeEach(s[1..])
  }

  lemma ReplaceAllOne(c: char, x: char, rep: string)
    ensures ReplaceAll([c], x, rep) == if c == x then rep else [c]
  {
    assert [c][1..] == [];
  }

  /** The stages after the one that produced an entity leave it as it is. */
  lemma LaterStagesKeep(e: string, from: nat)
    requires 1 <= from <= 4
    requires from <= 1 ==> '<' !in e
    requires from <= 2 ==> '>' !in e
    requires from <= 3 ==> '"' !in e
    requires '\'' !in e
    ensures from == 1 ==> ReplaceAll(ReplaceAll(ReplaceAll(ReplaceAll(e, '<', "&lt;"), '>', "&gt;"), '"', "&quot;"), '\'', "&#039;") == e
    ensures from == 2 ==> ReplaceAll(ReplaceAll(ReplaceAll(e, '>', "&gt;"), '"', "&quot;"), '\'', "&#039;") == e
    ensures from == 3 ==> ReplaceAll(ReplaceAll(e, '"', "&quot;"), '\'', "&#039;") == e
    ensures from == 4 ==> ReplaceAll(e, '\'', "&#039;") == e
  {
    if from <= 1 {
      ReplaceAllAbsent(e, '<', "&lt;");
    }
    if from <= 2 {
      ReplaceAllAbsent(e, '>', "&gt;");
    }
    if from <= 3 {
      ReplaceAllAbsent(e, '"', "&quot;");
    }
    ReplaceAllAbsent(e, '\'', "&#039;");
  }

  lemma ReplaceChainOne(c: char)
    ensures ReplaceChain([c]) == EscapeChar(c)
  {
    ReplaceAllOne(c, '&', "&amp;");
    if c == '&' {
      LaterStagesKeep("&amp;", 1);
      return;
    }
    ReplaceAllOne(c, '<', "&lt;");
    if c == '<' {
      LaterStagesKeep("&lt;", 2);
      return;
    }
    ReplaceAllOne(c, '>', "&gt;");
    if c == '>' {
      LaterStagesKeep("&gt;", 3);
      return;
    }
    ReplaceAllOne(c, '"', "&quot;");
    if c == '"' {
      LaterStagesKeep("&quot;", 4);
      return;
    }
    ReplaceAllOne(c, '\'', "&#039;");
  }

  lemma ReplaceChainAppend(a: string, b: string)
    ensures ReplaceChain(a + b) == ReplaceChain(a) + ReplaceChain(b)
  {
    ReplaceAllAppend(a, b, '&', "&amp;");
    var amp1, amp2 := ReplaceAll(a, '&', "&amp;"), ReplaceAll(b, '&', "&amp;");
    ReplaceAllAppend(amp1, amp2, '<', "&lt;");
    var lt1, lt2 := ReplaceAll(amp1, '<', "&lt;"), ReplaceAll(amp2, '<', "&lt;");
    ReplaceAllAppend(lt1, lt2, '>', "&gt;");
    var gt1, gt2 := ReplaceAll(lt1, '>', "&gt;"), ReplaceAll(lt2, '>', "&gt;");
    ReplaceAllAppend(gt1, gt2, '"', "&quot;");
    var quot1, quot2 := ReplaceAll(gt1, '"', "&quot;"), ReplaceAll(gt2, '"', "&quot;");
    ReplaceAllAppend(quot1, quot2, '\'', "&#039;");
  }

  /** Because '&' is replaced first, the chain of replacements escapes each character
      on its own: no entity a replacement produced is escaped again. */
  lemma {:induction false} ChainEscapesEachChar(s: string)
    ensures ReplaceChain(s) == EscapeEach(s)
  {
    if s == [] {
      assert ReplaceChain(s) == [];
    } else {
      assert s == [s[0]] + s[1..];
      ReplaceChainAppend([s[0]], s[1..]);
      ReplaceChainOne(s[0]);
      ChainEscapesEachChar(s[1..]);
    }
  }

  /** `escapeHtml`: '' for null or undefined (None), the replacement chain otherwise. */
  function EscapeHtml(unsafe: Option<string>): (r: string)
    ensures unsafe.None? ==> r == ""
    ensures unsafe.Some? ==> r == EscapeEach(unsafe.value)
  {
    match unsafe
    case None => ""
    case Some(s) =>
      ChainEscapesEachChar(s);
      ReplaceChain(s)
  }

  /** Markup characters an escaped text never holds. */
  predicate IsMarkup(c: char) {
    c == '<' || c == '>' || c == '"' || c == '\''
  }

  /** The five entities. */
  predicate EntityAt(t: string, i: nat)
    requires i <= |t|
  {
    var rest := t[i..];
    "&amp;" <= rest || "&lt;" <= rest || "&gt;" <= rest || "&quot;" <= rest || "&#039;" <= rest
  }

  lemma PrefixExtends(p: string, a: string, b: string)
    requires p <= a
    ensures p <= a + b
  {
    assert (a + b)[..|p|] == a[..|p|];
  }

  /** An escaped text holds no markup character, and each '&' in it begins one of the
      five entities. */
  lemma {:induction false} EscapedIsInert(s: string)
    ensures forall i :: 0 <= i < |EscapeEach(s)| ==> !IsMarkup(EscapeEach(s)[i])
    ensures forall i :: 0 <= i < |EscapeEach(s)| && EscapeEach(s)[i] == '&' ==> EntityAt(EscapeEach(s), i)
  {
    if s != [] {
      EscapedIsInert(s[1..]);
      var head, tail := EscapeChar(s[0]), EscapeEach(s[1..]);
      var t := head + tail;
      assert EscapeEach(s) == t;
      forall i | 0 <= i < |t|
        ensures !IsMarkup(t[i])
        ensures t[i] == '&' ==> EntityAt(t, i)
      {
        if i < |head| {
          if t[i] == '&' {
            assert i == 0;
            PrefixExtends(head, head, tail);
          }
        } else {
          assert t[i] == tail[i - |head|];
          assert t[i..] == tail[i - |head|..];
        }
      }
    }
  }

  /** Decoding the five entities, the inverse of the escaping. */
  function Unescape(t: string): string
    decreases |t|
  {
    if t == [] then []
    else if t[0] != '&' then [t[0]] + Unescape(t[1..])
    else if "&amp;" <= t then "&" + Unescape(t[5..])
    else if "&lt;" <= t then "<" + Unescape(t[4..])
    else if "&gt;" <= t then ">" + Unescape(t[4..])
    else if "&quot;" <= t then "\"" + Unescape(t[6..])
    else if "&#039;" <= t then "'" + Unescape(t[6..])
    else [t[0]] + Unescape(t[1..])
  }

  lemma UnescapeChunk(c: char, t: string)
    ensures Unescape(EscapeChar(c) + t) == [c] + Unescape(t)
  {
    var e := EscapeChar(c);
    var u := e + t;
    PrefixExtends(e, e, t);
    assert u[|e|..] == t;
    if c == '&' {
      assert Unescape(u) == "&" + Unescape(u[5..]);
    } else if c == '<' {
      assert !("&amp;" <= u) by { assert u[1] == 'l'; }
      assert Unescape(u) == "<" + Unescape(u[4..]);
    } else if c == '>' {
      assert !("&amp;" <= u) && !("&lt;" <= u) by { assert u[1] == 'g'; }
      assert Unescape(u) == ">" + Unescape(u[4..]);
    } else if c == '"' {
      assert !("&amp;" <= u) && !("&lt;" <= u) && !("&gt;" <= u) by { assert u[1] == 'q'; }
      assert Unescape(u) == "\"" + Unescape(u[6..]);
    } else if c == '\'' {
      assert !("&amp;" <= u) && !("&lt;" <= u) && !("&gt;" <= u) && !("&quot;" <= u) by { assert u[1] == '#'; }
      assert Unescape(u) == "'" + Unescape(u[6..]);
    } else {
      assert u[0] == c;
    }
  }

  /** Escaping loses nothing: decoding the entities gives back the original text. */
  lemma {:induction false} UnescapeEscape(s: string)
    ensures Unescape(EscapeEach(s)) == s
  {
    if s != [] {
      UnescapeChunk(s[0], EscapeEach(s[1..]));
      UnescapeEscape(s[1..]);
    }
  }

  /** `calculateHealthScore`: 0 for a host without services, else the percentage of
      healthy services rounded to the nearest integer, halves up (`Math.round`). */
  function HealthScore(healthy: nat, total: nat): (score: int)
    ensures total == 0 ==> score == 0
    ensures total > 0 ==> 2 * total * score <= 200 * healthy + total < 2 * total * (score + 1)
  {
    if total == 0 then 0 else (200 * healthy + total) / (2 * total)
  }

  lemma MulMono(a: int, b: int, c: int)
    requires a >= 0 && b <= c
    ensures a * b <= a * c
  {
    assert a * c - a * b == a * (c - b);
  }

  /** With no more healthy services than services, the score is a percentage; all
      healthy scores 100 and none healthy scores 0. */
  lemma ScoreIsPercentage(healthy: nat, total: nat)
    requires healthy <= total
    ensures 0 <= HealthScore(healthy, total) <= 100
    ensures total > 0 && healthy == total ==> HealthScore(healthy, total) == 100
    ensures healthy == 0 ==> HealthScore(healthy, total) == 0
  {
    if total > 0 {
      var score, t := HealthScore(healthy, total), 2 * total;
      assert t * score <= 200 * healthy + total < t * (score + 1);
      if score > 100 {
        MulMono(t, 101, score);
        assert false;
      }
      if score < 0 {
        MulMono(t, score + 1, 0);
        assert false;
      }
      if healthy == total && score < 100 {
        MulMono(t, score + 1, 100);
        assert false;
      }
      if healthy == 0 && score > 0 {
        MulMono(t, 1, score);
        assert false;
      }
    }
  }

  /** More healthy services never lower the score. */
  lemma ScoreMonotone(h1: nat, h2: nat, total: nat)
    requires h1 <= h2
    ensures HealthScore(h1, total) <= HealthScore(h2, total)
  {
    if total > 0 {
      var s1, s2, t := HealthScore(h1, total), HealthScore(h2, total), 2 * total;
      assert t * s1 <= 200 * h1 + total && 200 * h2 + total < t * (s2 + 1);
      if s1 > s2 {
        MulMono(t, s2 + 1, s1);
        assert false;
      }
    }
  }

  /** `getHealthScoreColor`. */
  function ScoreColor(score: int): (c: string)
    ensures c == "success" <==> score >= 90
    ensures c == "warning" <==> 70 <= score < 90
    ensures c == "danger" <==> score < 70
  {
    if score >= 90 then "success" else if score >= 70 then "warning" else "danger"
  }

  function ColorRank(c: string): nat {
    if c == "danger" then 0 else if c == "warning" then 1 else 2
  }

  /** A higher score never gets a worse colour. */
  lemma ColorMonotone(s1: int, s2: int)
    requires s1 <= s2
    ensures ColorRank(ScoreColor(s1)) <= ColorRank(ScoreColor(s2))
  {
  }

  /** The four statuses the lookup tables know. */
  predicate KnownStatus(status: string) {
    status == "healthy" || status == "unhealthy" || status == "warning" || status == "unknown"
  }

  /** `getStatusText`: the four known statuses in Chinese, any other status as it is. */
  function StatusText(status: string): (t: string)
    ensures status == "healthy" ==> t == "健康"
    ensures status == "unhealthy" ==> t == "异常"
    ensures status == "warning" ==> t == "警告"
    ensures status == "unknown" ==> t == "未知"
    ensures !KnownStatus(status) ==> t == status
  {
    if status == "healthy" then "健康"
    else if status == "unhealthy" then "异常"
    else if status == "warning" then "警告"
    else if status == "unknown" then "未知"
    else status
  }

  /** Distinct known statuses read differently, and every status a result or a host can
      have is translated. */
  lemma StatusTextDistinguishes(a: string, b: string, s: ServiceStatus)
    requires KnownStatus(a) && KnownStatus(b) && a != b
    ensures StatusText(a) != StatusText(b)
    ensures StatusText(s.Text()) != s.Text()
  {
  }

  const FallbackIcon := "fa-question-circle text-secondary"

  /** `getServiceStatusIcon`: the four known statuses have their own icon; any other
      status gets the question icon, the same as "unknown". */
  function StatusIcon(status: string): (icon: string)
    ensures status == "healthy" ==> icon == "fa-check-circle text-success"
    ensures status == "unhealthy" ==> icon == "fa-times-circle text-danger"
    ensures status == "warning" ==> icon == "fa-exclamation-circle text-warning"
    ensures status == "unknown" || !KnownStatus(status) ==> icon == FallbackIcon
  {
    if status == "healthy" then "fa-check-circle text-success"
    else if status == "unhealthy" then "fa-times-circle text-danger"
    else if status == "warning" then "fa-exclamation-circle text-warning"
    else FallbackIcon
  }

  /** Only the three known non-unknown statuses get an icon of their own. */
  lemma OwnIconIffKnown(status: string)
    ensures StatusIcon(status) != FallbackIcon <==> KnownStatus(status) && status != "unknown"
  {
  }

  /** The entries of a details object whose key is not 'server', in order. Values are
      the texts the template literal renders them as. */
  function KeptEntries(entries: seq<(string, string)>): (kept: seq<(string, string)>)
    ensures forall e :: e in kept <==> e in entries && e.0 != "server"
    ensures |kept| <= |entries|
  {
    if entries == [] then []
    else (if entries[0].0 != "server" then [entries[0]] else []) + KeptEntries(entries[1..])
  }

  function Badge(e: (string, string)): (b: string)
    ensures |b| > 0
  {
    "<span class=\"badge bg-light text-dark me-1 mb-1\">" + e.0 + ": " + e.1 + "</span>"
  }

  function Badges(entries: seq<(string, string)>): seq<string> {
    seq(|entries|, k requires 0 <= k < |entries| => Badge(entries[k]))
  }

  /** The badge row is empty exactly when no entry is kept, as every badge is non-empty. */
  lemma BadgesEmptyIff(kept: seq<(string, string)>)
    ensures Concat(Badges(kept)) == "" <==> kept == []
  {
    if kept != [] {
      assert Badges(kept)[0] == Badge(kept[0]);
    }
  }

  /** `renderServiceDetails`: nothing for absent or empty details or when 'server' is the
      only key; otherwise one badge per kept entry inside the details row. */
  function RenderServiceDetails(details: Option<seq<(string, string)>>): (html: string)
    ensures html == "" <==> details.None? || KeptEntries(details.value) == []
    ensures html != "" ==>
              html == "<div class=\"service-details mt-2\">" + Concat(Badges(KeptEntries(details.value))) + "</div>"
  {
    if details.None? || details.value == [] then ""
    else
      var items := Concat(Badges(KeptEntries(details.value)));
      BadgesEmptyIff(KeptEntries(details.value));
      if items != "" then "<div class=\"service-details mt-2\">" + items + "</div>" else ""
  }

  /** Details holding only the server name render as nothing. */
  lemma ServerOnlyRendersNothing(server: string)
    ensures RenderServiceDetails(Some([("server", server)])) == ""
  {
    assert KeptEntries([("server", server)]) == [] + KeptEntries([]);
  }
}
