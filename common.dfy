/**
 * Small helpers shared by every module: optional values and the handful of
 * Python string operations the services rely on (`str.strip`, `str.split`,
 * `str.join`, `str.lower` on ASCII, substring search).
 */
module Common {

  datatype Option<T> = None | Some(value: T)

  /** An operation that either produces a value or raises with a message. */
  datatype Result<T> = Ok(value: T) | Err(error: string)

  /** Python's `str.isspace` (and the regex class `\s`) for one character. */
  predicate IsSpace(c: char)
  {
    c == ' ' || ('\t' <= c <= '\r') || ('\U{1c}' <= c <= '\U{1f}')
    || c == '\U{85}' || c == '\U{a0}' || c == '\U{1680}'
    || ('\U{2000}' <= c <= '\U{200a}') || c == '\U{2028}' || c == '\U{2029}'
    || c == '\U{202f}' || c == '\U{205f}' || c == '\U{3000}'
  }

  function TrimLeft(s: string): (r: string)
    ensures |r| <= |s| && r == s[|s| - |r|..]
    ensures r == [] || !IsSpace(r[0])
  {
    if s == [] || !IsSpace(s[0]) then s else TrimLeft(s[1..])
  }

  /** Only whitespace is dropped on the left. */
  lemma {:induction false} TrimLeftDropsSpaces(s: string)
    ensures forall i :: 0 <= i < |s| - |TrimLeft(s)| ==> IsSpace(s[i])
  {
    if s != [] && IsSpace(s[0]) {
      TrimLeftDropsSpaces(s[1..]);
    }
  }

  function TrimRight(s: string): (r: string)
    ensures |r| <= |s| && r == s[..|r|]
    ensures r == [] || !IsSpace(r[|r| - 1])
  {
    if s == [] || !IsSpace(s[|s| - 1]) then s else TrimRight(s[..|s| - 1])
  }

  /** Only whitespace is dropped on the right. */
  lemma {:induction false} TrimRightDropsSpaces(s: string)
    ensures forall i :: |TrimRight(s)| <= i < |s| ==> IsSpace(s[i])
  {
    if s != [] && IsSpace(s[|s| - 1]) {
      TrimRightDropsSpaces(s[..|s| - 1]);
    }
  }

  /** Python's `str.strip()`: drop leading and trailing whitespace. */
  function Strip(s: string): (r: string)
    ensures r == [] || (!IsSpace(r[0]) && !IsSpace(r[|r| - 1]))
    ensures |r| <= |s|
  {
    TrimRight(TrimLeft(s))
  }

  predicate IsBlank(s: string)
  {
    forall i :: 0 <= i < |s| ==> IsSpace(s[i])
  }

  lemma {:induction false} StripEmptyIffBlank(s: string)
    ensures Strip(s) == [] <==> IsBlank(s)
  {
    var t := TrimLeft(s);
    TrimLeftDropsSpaces(s);
    TrimRightDropsSpaces(t);
    if t != [] {
      assert !IsSpace(t[0]) && t[0] == s[|s| - |t|];
      assert TrimRight(t) != [];
    }
  }

  /** Length of the run of whitespace starting at `p`. */
  function SpaceRun(t: string, p: nat): nat
    decreases |t| - p
  {
    if p < |t| && IsSpace(t[p]) then 1 + SpaceRun(t, p + 1) else 0
  }

  /** The run stays inside the text and stops at its end or at a non-space. */
  lemma {:induction false} SpaceRunEnds(t: string, p: nat)
    requires p <= |t|
    ensures p + SpaceRun(t, p) <= |t|
    ensures p + SpaceRun(t, p) == |t| || !IsSpace(t[p + SpaceRun(t, p)])
    ensures forall i :: p <= i < p + SpaceRun(t, p) ==> IsSpace(t[i])
    decreases |t| - p
  {
    if p < |t| && IsSpace(t[p]) {
      SpaceRunEnds(t, p + 1);
    }
  }

  lemma {:induction false} SpaceRunIs(t: string, p: nat, k: nat)
    requires p + k <= |t|
    requires forall i :: p <= i < p + k ==> IsSpace(t[i])
    requires p + k == |t| || !IsSpace(t[p + k])
    ensures SpaceRun(t, p) == k
    decreases k
  {
    if k > 0 {
      SpaceRunIs(t, p + 1, k - 1);
    }
  }

  /** Python's `round(x)`: the nearest integer, halves to the even neighbour. */
  function RoundHalfEven(x: real): int
  {
    var f := x.Floor;
    var frac := x - f as real;
    if frac > 0.5 then f + 1
    else if frac < 0.5 then f
    else if f % 2 == 0 then f else f + 1
  }

  /** The rounded value is within one half of `x`. */
  lemma RoundNearest(x: real)
    ensures -0.5 <= RoundHalfEven(x) as real - x <= 0.5
  {
  }

  /** Rounding keeps order. */
  lemma RoundMonotone(x: real, y: real)
    requires x <= y
    ensures RoundHalfEven(x) <= RoundHalfEven(y)
  {
    assert x.Floor <= y.Floor;
  }

  /** Whole numbers round to themselves. */
  lemma RoundWhole(n: int)
    ensures RoundHalfEven(n as real) == n
  {
    assert (n as real).Floor == n;
  }

  /** Python's `sep.join(parts)`. */
  function Join(sep: string, parts: seq<string>): string
  {
    if |parts| == 0 then "" else if |parts| == 1 then parts[0]
    else parts[0] + sep + Join(sep, parts[1..])
  }

  /** Python's `s.split(c)` for a one-character separator. */
  function Split(s: string, c: char): (r: seq<string>)
    ensures |r| >= 1
    ensures forall i :: 0 <= i < |r| ==> c !in r[i]
  {
    if s == [] then [""]
    else
      var rest := Split(s[1..], c);
      if s[0] == c then [""] + rest else [[s[0]] + rest[0]] + rest[1..]
  }

  /** Joining the pieces of a split with the separator gives back the string. */
  lemma {:induction false} JoinSplit(s: string, c: char)
    ensures Join([c], Split(s, c)) == s
  {
    if s != [] {
      var rest := Split(s[1..], c);
      JoinSplit(s[1..], c);
      if s[0] == c {
        assert Split(s, c) == [""] + rest;
      } else {
        var r := [[s[0]] + rest[0]] + rest[1..];
        if |rest| == 1 {
          assert Join([c], r) == [s[0]] + rest[0];
        } else {
          assert r[1..] == rest[1..];
          assert Join([c], r) == [s[0]] + rest[0] + [c] + Join([c], rest[1..]);
        }
      }
    }
  }

  /** Splitting text that does not hold the separator gives the text itself. */
  lemma {:induction false} SplitWithout(s: string, c: char)
    requires c !in s
    ensures Split(s, c) == [s]
  {
    if s != [] {
      SplitWithout(s[1..], c);
      assert [s[0]] + s[1..] == s;
    }
  }

  predicate IsUpperAscii(c: char) { 'A' <= c <= 'Z' }

  /** `str.lower()` restricted to ASCII: other characters are kept as they are. */
  function LowerChar(c: char): char
  {
    if IsUpperAscii(c) then (c as int + 32) as char else c
  }

  function Lower(s: string): (r: string)
    ensures |r| == |s| && forall i :: 0 <= i < |s| ==> r[i] == LowerChar(s[i])
  {
    seq(|s|, i requires 0 <= i < |s| => LowerChar(s[i]))
  }

  /** `str.upper()` restricted to ASCII. */
  function UpperChar(c: char): char
  {
    if 'a' <= c <= 'z' then (c as int - 32) as char else c
  }

  function Upper(s: string): (r: string)
    ensures |r| == |s| && forall i :: 0 <= i < |s| ==> r[i] == UpperChar(s[i])
  {
    seq(|s|, i requires 0 <= i < |s| => UpperChar(s[i]))
  }

  predicate OccursAt(s: string, pat: string, i: nat)
  {
    i + |pat| <= |s| && s[i..i + |pat|] == pat
  }

  /** The first position at or after `from` where `pat` occurs (Python's `str.find`). */
  function FindFrom(s: string, pat: string, from: nat): (r: Option<nat>)
    requires from <= |s|
    ensures r.Some? ==> from <= r.value && OccursAt(s, pat, r.value)
    decreases |s| - from
  {
    if OccursAt(s, pat, from) then Some(from)
    else if from == |s| then None
    else FindFrom(s, pat, from + 1)
  }

  /** No occurrence is skipped: none lies between `from` and the position found. */
  lemma {:induction false} FindFromMinimal(s: string, pat: string, from: nat)
    requires from <= |s|
    ensures forall j: nat :: from <= j && (FindFrom(s, pat, from).None? || j < FindFrom(s, pat, from).value)
              ==> !OccursAt(s, pat, j)
    decreases |s| - from
  {
    if !OccursAt(s, pat, from) && from < |s| {
      FindFromMinimal(s, pat, from + 1);
    }
  }

  function Find(s: string, pat: string): (r: Option<nat>)
    ensures r.Some? ==> OccursAt(s, pat, r.value)
  {
    FindFrom(s, pat, 0)
  }

  /** `str.find` returns the first occurrence, and -1 only when there is none. */
  lemma FindMinimal(s: string, pat: string)
    ensures forall j: nat :: Find(s, pat).None? || j < Find(s, pat).value ==> !OccursAt(s, pat, j)
  {
    FindFromMinimal(s, pat, 0);
  }

  predicate Contains(s: string, pat: string) { Find(s, pat).Some? }

  predicate StartsWith(s: string, prefix: string)
  {
    |prefix| <= |s| && s[..|prefix|] == prefix
  }

  /** `s.split(pat)[0]`: the text before the first occurrence of `pat`, or all of `s`. */
  function Before(s: string, pat: string): (r: string)
    ensures StartsWith(s, r)
  {
    match Find(s, pat)
    case None => s
    case Some(i) => s[..i]
  }

  /** The first piece of a split never contains the separator. */
  lemma BeforeHasNoPattern(s: string, pat: string)
    requires pat != []
    ensures !Contains(Before(s, pat), pat)
  {
    FindMinimal(s, pat);
    match Find(s, pat)
    case None =>
    case Some(i) =>
      var r := s[..i];
      forall j: nat | OccursAt(r, pat, j) ensures OccursAt(s, pat, j) && j < i {
        assert r[j..j + |pat|] == s[j..j + |pat|];
      }
  }

  /** The text after the first occurrence of `pat`; requires that it occurs. */
  function After(s: string, pat: string): (r: string)
    requires Contains(s, pat)
    ensures exists i: nat :: OccursAt(s, pat, i) && r == s[i + |pat|..]
  {
    s[Find(s, pat).value + |pat|..]
  }

  /** `s.split(pat)[1]` when `pat` occurs in `s`. */
  function SecondPiece(s: string, pat: string): string
    requires Contains(s, pat)
  {
    Before(After(s, pat), pat)
  }

  /** An occurrence anywhere means `pat in s` holds. */
  lemma OccursContains(s: string, pat: string, i: nat)
    requires OccursAt(s, pat, i)
    ensures Contains(s, pat)
  {
    FindMinimal(s, pat);
  }

  /** A string that starts and ends with a non-space character is its own `strip()`. */
  lemma StripUnchanged(s: string)
    requires s == [] || (!IsSpace(s[0]) && !IsSpace(s[|s| - 1]))
    ensures Strip(s) == s
  {
  }

  predicate IsDigit(c: char) { '0' <= c <= '9' }

  predicate AllDigits(s: string)
  {
    forall i :: 0 <= i < |s| ==> IsDigit(s[i])
  }

  /** The value of a run of decimal digits. */
  function DigitsValue(s: string): nat
    requires AllDigits(s)
  {
    if s == [] then 0 else DigitsValue(s[..|s| - 1]) * 10 + (s[|s| - 1] as int - '0' as int)
  }

  /** Python's `str(n)` for a natural number. */
  function DecimalString(n: nat): (r: string)
    ensures r != [] && AllDigits(r)
  {
    var d := [(n % 10 + '0' as int) as char];
    if n < 10 then d else DecimalString(n / 10) + d
  }

  /** An optional sign followed by at least one decimal digit. */
  predicate IsIntLiteral(t: string)
  {
    (t != [] && AllDigits(t)) || (|t| >= 2 && (t[0] == '-' || t[0] == '+') && AllDigits(t[1..]))
  }

  /**
   * Python's `int(s)` on a string: surrounding whitespace, an optional sign
   * and ASCII decimal digits; anything else raises (`None` here).
   */
  function ParseInt(s: string): Option<int>
  {
    IntLiteralValue(Strip(s))
  }

  function IntLiteralValue(t: string): (r: Option<int>)
    ensures r.Some? <==> IsIntLiteral(t)
  {
    if t != [] && AllDigits(t) then Some(DigitsValue(t))
    else if |t| >= 2 && t[0] == '+' && AllDigits(t[1..]) then Some(DigitsValue(t[1..]))
    else if |t| >= 2 && t[0] == '-' && AllDigits(t[1..]) then Some(-(DigitsValue(t[1..]) as int))
    else None
  }

  lemma {:induction false} DecimalValue(n: nat)
    ensures DigitsValue(DecimalString(n)) == n
  {
    var d := [(n % 10 + '0' as int) as char];
    if n >= 10 {
      DecimalValue(n / 10);
      var r := DecimalString(n / 10) + d;
      assert r[..|r| - 1] == DecimalString(n / 10);
    }
  }

  /** `int(str(n)) == n`. */
  lemma ParseDecimal(n: nat)
    ensures ParseInt(DecimalString(n)) == Some(n)
  {
    var s := DecimalString(n);
    StripUnchanged(s);
    DecimalValue(n);
  }

  /** The first occurrence is at `i` when `pat` occurs there and nowhere before. */
  lemma FindFirst(s: string, pat: string, i: nat)
    requires OccursAt(s, pat, i)
    requires forall j: nat :: j < i ==> !OccursAt(s, pat, j)
    ensures Find(s, pat) == Some(i)
  {
    FindMinimal(s, pat);
  }

  /** With a backtick-free prefix, a pattern that starts with a backtick is first found after it. */
  lemma TickFreePrefix(body: string, pat: string, rest: string)
    requires '`' !in body && pat != [] && pat[0] == '`'
    ensures forall j: nat :: j < |body| ==> !OccursAt(body + rest, pat, j)
  {
    forall j: nat | j < |body| ensures !OccursAt(body + rest, pat, j) {
      if j + |pat| <= |body + rest| {
        assert (body + rest)[j..j + |pat|][0] == body[j];
      }
    }
  }

  /** The text after a leading occurrence of `pat`. */
  lemma AfterLeading(pat: string, rest: string)
    ensures OccursAt(pat + rest, pat, 0) && Contains(pat + rest, pat)
    ensures After(pat + rest, pat) == rest
  {
    var s := pat + rest;
    assert s[0..|pat|] == pat;
    FindFirst(s, pat, 0);
    OccursContains(s, pat, 0);
    assert s[|pat|..] == rest;
  }

  /** `Before` stops at the first occurrence, which a backtick-free body cannot hide. */
  lemma BeforeTickFree(body: string, pat: string, rest: string)
    requires '`' !in body && pat != [] && pat[0] == '`'
    requires OccursAt(body + rest, pat, |body|)
    ensures Before(body + rest, pat) == body
  {
    TickFreePrefix(body, pat, rest);
    FindFirst(body + rest, pat, |body|);
    assert (body + rest)[..|body|] == body;
  }

  /** Without an occurrence `Before` keeps the whole text. */
  lemma BeforeAbsent(s: string, pat: string)
    requires forall j: nat :: !OccursAt(s, pat, j)
    ensures Before(s, pat) == s
  {
  }
}
