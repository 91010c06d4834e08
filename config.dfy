/** Settings derived from the environment: the stop-sequence list. */
module Config {
  import opened Common

  /** The stripped, non-blank pieces, in order. */
  function KeepStripped(parts: seq<string>): (r: seq<string>)
    ensures forall i :: 0 <= i < |r| ==> r[i] != [] && !IsSpace(r[i][0]) && !IsSpace(r[i][|r[i]| - 1])
    ensures |r| <= |parts|
  {
    if parts == [] then []
    else if Strip(parts[0]) != [] then [Strip(parts[0])] + KeepStripped(parts[1..])
    else KeepStripped(parts[1..])
  }

  /** `vllm_stop_sequences`: the comma-separated setting split, stripped, with blanks dropped. */
  function StopSequences(raw: string): (r: seq<string>)
    ensures forall i :: 0 <= i < |r| ==> r[i] != [] && ',' !in r[i]
    ensures forall i :: 0 <= i < |r| ==> !IsSpace(r[i][0]) && !IsSpace(r[i][|r[i]| - 1])
  {
    var parts := Split(raw, ',');
    KeepStrippedNoComma(parts);
    KeepStripped(parts)
  }

  lemma {:induction false} KeepStrippedNoComma(parts: seq<string>)
    requires forall i :: 0 <= i < |parts| ==> ',' !in parts[i]
    ensures forall i :: 0 <= i < |KeepStripped(parts)| ==> ',' !in KeepStripped(parts)[i]
  {
    if parts != [] {
      KeepStrippedNoComma(parts[1..]);
      StripSubstring(parts[0]);
    }
  }

  /** Every character of `s.strip()` comes from `s`. */
  lemma StripSubstring(s: string)
    ensures forall c :: c in Strip(s) ==> c in s
  {
    var t := TrimLeft(s);
    forall c | c in Strip(s) ensures c in s {
      var i :| 0 <= i < |Strip(s)| && Strip(s)[i] == c;
      assert Strip(s)[i] == t[i];
      assert t[i] == s[|s| - |t| + i];
    }
  }

  /** Order is kept: the pieces of a concatenation are the pieces of each part, in turn. */
  lemma {:induction false} KeepStrippedAppend(a: seq<string>, b: seq<string>)
    ensures KeepStripped(a + b) == KeepStripped(a) + KeepStripped(b)
  {
    if a == [] {
      assert a + b == b;
    } else {
      assert (a + b)[0] == a[0] && (a + b)[1..] == a[1..] + b;
      KeepStrippedAppend(a[1..], b);
    }
  }

  /** Exactly the non-blank pieces survive, each as its stripped form. */
  lemma {:induction false} KeepStrippedMembers(parts: seq<string>)
    ensures forall p :: p in parts && !IsBlank(p) ==> Strip(p) in KeepStripped(parts)
    ensures forall x :: x in KeepStripped(parts) ==> exists p :: p in parts && !IsBlank(p) && x == Strip(p)
  {
    if parts != [] {
      KeepStrippedMembers(parts[1..]);
      StripEmptyIffBlank(parts[0]);
      forall p | p in parts && !IsBlank(p) ensures Strip(p) in KeepStripped(parts) {
        StripEmptyIffBlank(p);
        if p != parts[0] {
          assert p in parts[1..];
        }
      }
      forall x | x in KeepStripped(parts) ensures exists p :: p in parts && !IsBlank(p) && x == Strip(p) {
        if x !in KeepStripped(parts[1..]) {
          assert x == Strip(parts[0]);
          assert parts[0] in parts;
        } else {
          var p :| p in parts[1..] && !IsBlank(p) && x == Strip(p);
          assert p in parts;
        }
      }
    }
  }
}
