/** Python's string operations as the detectors use them: `strip()`, `strip(chars)`,
    `lower()`, `upper()`, `split('\n')`, `split()`, `startswith`, `isdigit()`, `int()`,
    and the decimal rendering of integers that f-strings perform. */
module PyStr {

  /** `str.isspace()` for one character: the characters Python's `strip()` and
      `split()` treat as whitespace. */
  predicate IsSpace(c: char) {
    var u := c as int;
    (9 <= u <= 13) || (28 <= u <= 32) || u == 0x85 || u == 0xA0 || u == 0x1680 ||
    (0x2000 <= u <= 0x200A) || u == 0x2028 || u == 0x2029 || u == 0x202F || u == 0x205F ||
    u == 0x3000
  }

  /** Drops the leading characters that satisfy `drop`: Python's `lstrip`. */
  function TrimStart(s: string, drop: char -> bool): (r: string)
    ensures |r| <= |s|
    ensures r == [] || !drop(r[0])
  {
    if s == [] || !drop(s[0]) then s else TrimStart(s[1..], drop)
  }

  /** `lstrip` removes exactly the leading run of dropped characters. */
  lemma {:induction false} TrimStartSpec(s: string, drop: char -> bool)
    ensures var r := TrimStart(s, drop);
      r == s[|s| - |r|..] && forall k :: 0 <= k < |s| - |r| ==> drop(s[k])
  {
    if s != [] && drop(s[0]) {
      TrimStartSpec(s[1..], drop);
    }
  }

  /** Drops the trailing characters that satisfy `drop`: Python's `rstrip`. */
  function TrimEnd(s: string, drop: char -> bool): (r: string)
    ensures |r| <= |s|
    ensures r == [] || !drop(r[|r| - 1])
  {
    if s == [] || !drop(s[|s| - 1]) then s else TrimEnd(s[..|s| - 1], drop)
  }

  /** `rstrip` removes exactly the trailing run of dropped characters. */
  lemma {:induction false} TrimEndSpec(s: string, drop: char -> bool)
    ensures var r := TrimEnd(s, drop);
      r == s[..|r|] && forall k :: |r| <= k < |s| ==> drop(s[k])
  {
    if s != [] && drop(s[|s| - 1]) {
      TrimEndSpec(s[..|s| - 1], drop);
    }
  }

  /** Python's `s.strip()` (no argument: whitespace). */
  function Strip(s: string): string {
    TrimEnd(TrimStart(s, IsSpace), IsSpace)
  }

  /** Python's `s.strip(chars)` for a one-character `chars`. */
  function StripChar(s: string, q: char): string {
    TrimEnd(TrimStart(s, c => c == q), c => c == q)
  }

  /** What `Strip` promises: the result is the slice of the input that starts at its first
      non-whitespace character and ends at its last one; only whitespace was cut off. */
  lemma StripSpec(s: string)
    ensures var r, i := Strip(s), |s| - |TrimStart(s, IsSpace)|;
      && i + |r| <= |s| && r == s[i..i + |r|]
      && (forall k :: 0 <= k < i ==> IsSpace(s[k]))
      && (forall k :: i + |r| <= k < |s| ==> IsSpace(s[k]))
      && (r == [] || (!IsSpace(r[0]) && !IsSpace(r[|r| - 1])))
  {
    var a := TrimStart(s, IsSpace);
    var r := TrimEnd(a, IsSpace);
    TrimStartSpec(s, IsSpace);
    TrimEndSpec(a, IsSpace);
    if r != [] {
      assert r[0] == a[0];
    }
  }

  /** Stripping twice is stripping once. */
  lemma StripIdempotent(s: string)
    ensures Strip(Strip(s)) == Strip(s)
  {
    var r := Strip(s);
    StripSpec(s);
    if r != [] {
      assert TrimStart(r, IsSpace) == r;
    }
  }

  function LowerChar(c: char): char {
    if 'A' <= c <= 'Z' then (c as int + 32) as char else c
  }

  function UpperChar(c: char): char {
    if 'a' <= c <= 'z' then (c as int - 32) as char else c
  }

  /** Python's `s.lower()` on the ASCII letters. */
  function Lower(s: string): (r: string)
    ensures |r| == |s|
  {
    seq(|s|, i requires 0 <= i < |s| => LowerChar(s[i]))
  }

  /** Python's `s.upper()` on the ASCII letters. */
  function Upper(s: string): (r: string)
    ensures |r| == |s|
  {
    seq(|s|, i requires 0 <= i < |s| => UpperChar(s[i]))
  }

  /** A lower-cased string has no upper-case letter and lower-casing it again changes nothing. */
  lemma LowerIdempotent(s: string)
    ensures Lower(Lower(s)) == Lower(s)
    ensures forall i :: 0 <= i < |s| ==> !('A' <= Lower(s)[i] <= 'Z')
  {
  }

  /** Upper-casing forgets case: two strings that differ only in the case of their letters
      upper-case to the same string. */
  lemma UpperIgnoresCase(s: string, t: string)
    requires Lower(s) == Lower(t)
    ensures Upper(s) == Upper(t)
  {
    forall i | 0 <= i < |s|
      ensures Upper(s)[i] == Upper(t)[i]
    {
      assert Lower(s)[i] == Lower(t)[i];
    }
  }

  /** Python's `s.split(sep)` for a one-character separator: always at least one piece. */
  function SplitOn(s: string, sep: char): (pieces: seq<string>)
    ensures |pieces| >= 1
    ensures forall p :: p in pieces ==> sep !in p
  {
    if sep !in s then [s]
    else
      var k := IndexOf(s, sep);
      [s[..k]] + SplitOn(s[k + 1..], sep)
  }

  /** The first position of `c` in `s`. */
  function IndexOf(s: string, c: char): (k: nat)
    requires c in s
    ensures k < |s| && s[k] == c && c !in s[..k]
  {
    if s[0] == c then 0 else 1 + IndexOf(s[1..], c)
  }

  /** Python's `sep.join(pieces)`. */
  function Join(pieces: seq<string>, sep: char): string {
    if |pieces| <= 1 then (if pieces == [] then "" else pieces[0])
    else pieces[0] + [sep] + Join(pieces[1..], sep)
  }

  /** Splitting and joining again gives back the original text. */
  lemma {:induction false} SplitJoin(s: string, sep: char)
    ensures Join(SplitOn(s, sep), sep) == s
  {
    if sep in s {
      var k := IndexOf(s, sep);
      SplitJoin(s[k + 1..], sep);
      assert s == s[..k] + [sep] + s[k + 1..];
    }
  }

  /** Python's `s.split()`: the maximal runs of non-whitespace characters. */
  function Words(s: string): (ws: seq<string>)
    decreases |s|
  {
    var t := TrimStart(s, IsSpace);
    if t == [] then []
    else
      var w := TakeWord(t);
      [w] + Words(t[|w|..])
  }

  /** The longest prefix of `s` that holds no whitespace. */
  function TakeWord(s: string): (w: string)
    ensures w <= s
    ensures forall c :: c in w ==> !IsSpace(c)
    ensures |w| < |s| ==> IsSpace(s[|w|])
    ensures s != [] && !IsSpace(s[0]) ==> w != []
  {
    if s == [] || IsSpace(s[0]) then [] else [s[0]] + TakeWord(s[1..])
  }

  /** The characters of `s` that are not whitespace. */
  function NonSpace(s: string): string {
    if s == [] then [] else (if IsSpace(s[0]) then [] else [s[0]]) + NonSpace(s[1..])
  }

  function Concat(ws: seq<string>): string {
    if ws == [] then [] else ws[0] + Concat(ws[1..])
  }

  lemma {:induction false} NonSpaceAppend(a: string, b: string)
    ensures NonSpace(a + b) == NonSpace(a) + NonSpace(b)
  {
    if a != [] {
      assert (a + b)[0] == a[0];
      assert (a + b)[1..] == a[1..] + b;
      NonSpaceAppend(a[1..], b);
    } else {
      assert a + b == b;
    }
  }

  lemma NonSpaceOfWord(w: string)
    requires forall c :: c in w ==> !IsSpace(c)
    ensures NonSpace(w) == w
  {
    if w != [] {
      assert w[0] in w;
      NonSpaceOfWord(w[1..]);
    }
  }

  lemma NonSpaceOfSpaces(s: string)
    requires forall k :: 0 <= k < |s| ==> IsSpace(s[k])
    ensures NonSpace(s) == []
  {
  }

  lemma WordSplit(t: string, w: string)
    requires w <= t
    ensures NonSpace(t) == NonSpace(w) + NonSpace(t[|w|..])
  {
    assert t == w + t[|w|..];
    NonSpaceAppend(w, t[|w|..]);
  }

  /** Leading whitespace holds no text. */
  lemma NonSpaceAfterTrim(s: string)
    ensures NonSpace(s) == NonSpace(TrimStart(s, IsSpace))
  {
    var t := TrimStart(s, IsSpace);
    TrimStartSpec(s, IsSpace);
    var lead := s[..|s| - |t|];
    assert s == lead + t;
    NonSpaceAppend(lead, t);
    NonSpaceOfSpaces(lead);
  }

  /** One step of `split()`: the first word, then the words of what follows it. */
  lemma ConcatWordsStep(s: string)
    requires TrimStart(s, IsSpace) != []
    ensures var t := TrimStart(s, IsSpace);
      Concat(Words(s)) == TakeWord(t) + Concat(Words(t[|TakeWord(t)|..]))
  {
    var t := TrimStart(s, IsSpace);
    var w := TakeWord(t);
    assert Words(s) == [w] + Words(t[|w|..]);
    assert ([w] + Words(t[|w|..]))[1..] == Words(t[|w|..]);
  }

  /** `split()` loses exactly the whitespace: its words, put together, are the input's
      non-whitespace characters in order. */
  lemma {:induction false} WordsKeepText(s: string)
    ensures Concat(Words(s)) == NonSpace(s)
    decreases |s|
  {
    var t := TrimStart(s, IsSpace);
    NonSpaceAfterTrim(s);
    if t != [] {
      var w := TakeWord(t);
      ConcatWordsStep(s);
      WordsKeepText(t[|w|..]);
      WordSplit(t, w);
      NonSpaceOfWord(w);
    }
  }

  /** A word is a non-empty run of non-whitespace characters. */
  predicate IsWord(w: string) {
    w != [] && forall k :: 0 <= k < |w| ==> !IsSpace(w[k])
  }

  /** `TakeWord` stops exactly at the end of a word that whitespace (or the end) follows. */
  lemma {:induction false} TakeWordOfWord(w: string, rest: string)
    requires forall k :: 0 <= k < |w| ==> !IsSpace(w[k])
    requires rest == [] || IsSpace(rest[0])
    ensures TakeWord(w + rest) == w
  {
    if w == [] {
      assert w + rest == rest;
    } else {
      assert (w + rest)[0] == w[0];
      assert (w + rest)[1..] == w[1..] + rest;
      TakeWordOfWord(w[1..], rest);
    }
  }

  /** Two words separated by one space split into exactly those two words. */
  lemma WordsOfTwo(a: string, b: string)
    requires IsWord(a) && IsWord(b)
    ensures Words(a + " " + b) == [a, b]
  {
    var s := a + " " + b;
    assert s[0] == a[0];
    assert TrimStart(s, IsSpace) == s;
    assert s == a + (" " + b);
    TakeWordOfWord(a, " " + b);
    assert s[|a|..] == " " + b;
    assert Words(s) == [a] + Words(" " + b);
    var t := " " + b;
    assert t[1..] == b;
    assert TrimStart(t, IsSpace) == TrimStart(b, IsSpace);
    assert TrimStart(b, IsSpace) == b;
    assert b == b + [];
    TakeWordOfWord(b, []);
    assert b[|b|..] == [];
    assert Words(t) == [b] + Words([]);
  }

  predicate IsDigit(c: char) {
    '0' <= c <= '9'
  }

  function DigitValue(c: char): nat
    requires IsDigit(c)
  {
    c as int - '0' as int
  }

  /** Python's `s.isdigit()` on ASCII digits: non-empty and digits only. */
  predicate IsDigits(s: string) {
    |s| > 0 && forall k :: 0 <= k < |s| ==> IsDigit(s[k])
  }

  /** Python's `int(s)` for a string of decimal digits (leading zeros allowed). */
  function ParseDecimal(s: string): nat
    requires forall k :: 0 <= k < |s| ==> IsDigit(s[k])
  {
    if s == [] then 0 else ParseDecimal(s[..|s| - 1]) * 10 + DigitValue(s[|s| - 1])
  }

  /** The decimal rendering of a natural number, as `str(n)` gives it. */
  function ShowNat(n: nat): string {
    var d := ['0' + (n % 10) as char];
    if n < 10 then d else ShowNat(n / 10) + d
  }

  /** The decimal rendering of any integer, as `str(i)` gives it. */
  function ShowInt(i: int): string {
    if i < 0 then "-" + ShowNat(-i) else ShowNat(i)
  }

  /** `str(n)` prints only digits, so `isdigit` accepts it. */
  lemma {:induction false} ShowNatDigits(n: nat)
    ensures IsDigits(ShowNat(n))
  {
    if n >= 10 {
      ShowNatDigits(n / 10);
    }
  }

  /** Reading back what `ShowNat` wrote gives the number. */
  lemma {:induction false} ParseShow(n: nat)
    ensures IsDigits(ShowNat(n)) && ParseDecimal(ShowNat(n)) == n
  {
    var s := ShowNat(n);
    ShowNatDigits(n);
    if n >= 10 {
      ShowNatDigits(n / 10);
      ParseShow(n / 10);
      assert s[..|s| - 1] == ShowNat(n / 10);
    }
  }
}
