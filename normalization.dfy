/**
 * `Normalization`: the text normalisation the deduplication filters compare
 * on. Text is lower-cased, everything but ASCII letters, digits and
 * whitespace is dropped, each whitespace run becomes one space, and the ends
 * are trimmed.
 */
module Normalization {
  import opened Common

  /** A character the punctuation filter `[^a-z0-9\s]` keeps. */
  predicate Kept(c: char)
  {
    'a' <= c <= 'z' || IsDigit(c) || IsSpace(c)
  }

  /** A character normalised text may hold. */
  predicate NormalChar(c: char)
  {
    'a' <= c <= 'z' || IsDigit(c) || c == ' '
  }

  /** `re.sub(r"[^a-z0-9\s]", "", s)`. */
  function DropPunctuation(s: string): (r: string)
    ensures forall i :: 0 <= i < |r| ==> Kept(r[i])
  {
    if s == [] then []
    else DropPunctuation(s[..|s| - 1]) + (if Kept(s[|s| - 1]) then [s[|s| - 1]] else [])
  }

  /** `re.sub(r"\s+", " ", s)`: every whitespace run becomes a single space. */
  function CollapseSpaces(s: string): string
    decreases |s|
  {
    if s == [] then []
    else if IsSpace(s[0]) then
      SpaceRunEnds(s, 0);
      " " + CollapseSpaces(s[SpaceRun(s, 0)..])
    else [s[0]] + CollapseSpaces(s[1..])
  }

  /** `normalize_text`; Unicode NFKC canonicalisation is taken as the identity. */
  function NormalizeText(text: string): string
  {
    if text == "" then "" else Strip(CollapseSpaces(DropPunctuation(Lower(text))))
  }

  predicate AllNormalChars(s: string)
  {
    forall i :: 0 <= i < |s| ==> NormalChar(s[i])
  }

  predicate NoDoubleSpace(s: string)
  {
    forall i :: 0 <= i < |s| - 1 ==> s[i] != ' ' || s[i + 1] != ' '
  }

  /** The shape of normalised text: normal characters, single inner spaces, none at either end. */
  predicate Normalized(s: string)
  {
    AllNormalChars(s) && NoDoubleSpace(s) && (s == [] || (s[0] != ' ' && s[|s| - 1] != ' '))
  }

  /** Collapsing filtered text leaves only normal characters and no two spaces in a row. */
  lemma {:induction false} CollapseShape(s: string)
    requires forall i :: 0 <= i < |s| ==> Kept(s[i])
    ensures AllNormalChars(CollapseSpaces(s)) && NoDoubleSpace(CollapseSpaces(s))
    ensures s != [] && !IsSpace(s[0]) ==> CollapseSpaces(s) != [] && CollapseSpaces(s)[0] == s[0]
    decreases |s|
  {
    if s != [] {
      if IsSpace(s[0]) {
        SpaceRunEnds(s, 0);
        var rest := s[SpaceRun(s, 0)..];
        CollapseShape(rest);
        var c := CollapseSpaces(rest);
        assert CollapseSpaces(s) == " " + c;
        assert c != [] ==> c[0] != ' ';
      } else {
        CollapseShape(s[1..]);
        assert CollapseSpaces(s) == [s[0]] + CollapseSpaces(s[1..]);
      }
    }
  }

  /** `Strip` returns a slice of its argument. */
  lemma StripSlice(s: string) returns (a: nat)
    ensures a + |Strip(s)| <= |s| && Strip(s) == s[a..a + |Strip(s)|]
  {
    var t := TrimLeft(s);
    a := |s| - |t|;
    assert t == s[a..];
  }

  /** Normalised text has the shape `Normalized` describes. */
  lemma NormalizeShape(text: string)
    ensures Normalized(NormalizeText(text))
  {
    if text != "" {
      var d := DropPunctuation(Lower(text));
      var c := CollapseSpaces(d);
      assert NormalizeText(text) == Strip(c);
      assert AllNormalChars(c) && NoDoubleSpace(c) by {
        CollapseShape(d);
      }
      StripShape(c);
    }
  }

  /** Trimming text of normal characters without double spaces gives normalised text. */
  lemma StripShape(c: string)
    requires AllNormalChars(c) && NoDoubleSpace(c)
    ensures Normalized(Strip(c))
  {
    var a := StripSlice(c);
    SliceKeepsShape(c, a, |Strip(c)|);
    var r := Strip(c);
    assert r == [] || (!IsSpace(r[0]) && !IsSpace(r[|r| - 1]));
  }

  /** A stretch of text with only normal characters and no double space has neither either. */
  lemma SliceKeepsShape(c: string, a: nat, n: nat)
    requires a + n <= |c| && AllNormalChars(c) && NoDoubleSpace(c)
    ensures AllNormalChars(c[a..a + n]) && NoDoubleSpace(c[a..a + n])
  {
    var r := c[a..a + n];
    assert forall i :: 0 <= i < |r| ==> r[i] == c[a + i];
  }

  /** Collapsing text with single spaces only changes nothing. */
  lemma {:induction false} CollapseKeepsSingleSpaces(s: string)
    requires AllNormalChars(s) && NoDoubleSpace(s)
    ensures CollapseSpaces(s) == s
    decreases |s|
  {
    if s != [] {
      assert AllNormalChars(s[1..]) && NoDoubleSpace(s[1..]);
      CollapseKeepsSingleSpaces(s[1..]);
      if IsSpace(s[0]) {
        assert |s| == 1 || s[1] != ' ';
        assert |s| == 1 || !IsSpace(s[1]);
        SpaceRunIs(s, 0, 1);
      }
      assert [s[0]] + s[1..] == s;
    }
  }

  /** Text of normal characters survives the punctuation filter and lower-casing. */
  lemma {:induction false} FilterKeepsNormal(s: string)
    requires AllNormalChars(s)
    ensures DropPunctuation(s) == s
  {
    if s != [] {
      FilterKeepsNormal(s[..|s| - 1]);
      assert s[..|s| - 1] + [s[|s| - 1]] == s;
    }
  }

  /** Normalised text is a fixed point. */
  lemma NormalizedFixed(s: string)
    requires Normalized(s)
    ensures NormalizeText(s) == s
  {
    if s != "" {
      assert forall i :: 0 <= i < |s| ==> !IsUpperAscii(s[i]);
      assert Lower(s) == s;
      FilterKeepsNormal(s);
      CollapseKeepsSingleSpaces(s);
      StripUnchanged(s);
    }
  }

  /** Normalising twice is normalising once. */
  lemma NormalizeIdempotent(text: string)
    ensures NormalizeText(NormalizeText(text)) == NormalizeText(text)
  {
    NormalizeShape(text);
    NormalizedFixed(NormalizeText(text));
  }

  /** A character other than whitespace in front is copied. */
  lemma CollapseNonSpace(s: string)
    requires s != [] && !IsSpace(s[0])
    ensures CollapseSpaces(s) == [s[0]] + CollapseSpaces(s[1..])
  {
  }

  /** A word without whitespace in front is copied as it is. */
  lemma {:induction false} CollapseWordFirst(w: string, rest: string)
    requires forall i :: 0 <= i < |w| ==> !IsSpace(w[i])
    ensures CollapseSpaces(w + rest) == w + CollapseSpaces(rest)
  {
    if w != [] {
      var tail := w[1..];
      assert forall i :: 0 <= i < |tail| ==> !IsSpace(tail[i]) by {
        forall i | 0 <= i < |tail| ensures !IsSpace(tail[i]) {
          assert tail[i] == w[i + 1];
        }
      }
      CollapseWordFirst(tail, rest);
      var s := w + rest;
      assert s[0] == w[0] && s[1..] == tail + rest;
      CollapseNonSpace(s);
      assert [w[0]] + tail == w;
    } else {
      assert w + rest == rest;
    }
  }

  /** A whitespace run in front becomes one space. */
  lemma CollapseRunFirst(spaces: string, rest: string)
    requires spaces != [] && forall i :: 0 <= i < |spaces| ==> IsSpace(spaces[i])
    requires rest == [] || !IsSpace(rest[0])
    ensures CollapseSpaces(spaces + rest) == " " + CollapseSpaces(rest)
  {
    var s := spaces + rest;
    SpaceRunIs(s, 0, |spaces|);
    assert s[|spaces|..] == rest;
  }

  /** Lower-casing works character by character. */
  lemma LowerAppend(a: string, b: string)
    ensures Lower(a + b) == Lower(a) + Lower(b)
  {
    assert forall i :: 0 <= i < |a + b| ==> Lower(a + b)[i] == (Lower(a) + Lower(b))[i];
  }

  /** Two words around a whitespace run collapse to the words around one space. */
  lemma CollapseTwoWords(word1: string, gap: string, word2: string)
    requires forall i :: 0 <= i < |word1| ==> !IsSpace(word1[i])
    requires gap != [] && forall i :: 0 <= i < |gap| ==> IsSpace(gap[i])
    requires word2 != [] && !IsSpace(word2[0]) && AllNormalChars(word2) && NoDoubleSpace(word2)
    ensures CollapseSpaces(word1 + gap + word2) == word1 + " " + word2
  {
    var rest := gap + word2;
    assert word1 + gap + word2 == word1 + rest;
    assert CollapseSpaces(rest) == " " + word2 by {
      CollapseRunFirst(gap, word2);
      CollapseKeepsSingleSpaces(word2);
    }
    assert CollapseSpaces(word1 + rest) == word1 + (" " + word2) by {
      CollapseWordFirst(word1, rest);
    }
    assert word1 + (" " + word2) == word1 + " " + word2;
  }

  /** The filter works character by character. */
  lemma {:induction false} DropAppend(a: string, b: string)
    ensures DropPunctuation(a + b) == DropPunctuation(a) + DropPunctuation(b)
    decreases |b|
  {
    if b != [] {
      var init := b[..|b| - 1];
      DropAppend(a, init);
      assert (a + b)[..|a + b| - 1] == a + init;
    } else {
      assert a + b == a;
    }
  }

  /** Texts that differ only in letter case normalise alike. */
  lemma SameUpToCase(a: string, b: string)
    requires Lower(a) == Lower(b)
    ensures NormalizeText(a) == NormalizeText(b)
  {
  }

  /** A character the filter drops, inserted anywhere, leaves the normalised text unchanged. */
  lemma DroppedCharIgnored(a: string, c: char, b: string)
    requires !Kept(LowerChar(c))
    ensures NormalizeText(a + [c] + b) == NormalizeText(a + b)
  {
    var la, lc, lb := Lower(a), Lower([c]), Lower(b);
    LowerAppend(a + [c], b);
    LowerAppend(a, [c]);
    LowerAppend(a, b);
    assert DropPunctuation(lc) == [] by {
      assert lc == [] + [LowerChar(c)];
    }
    DropAppend(la + lc, lb);
    DropAppend(la, lc);
    DropAppend(la, lb);
    var kept := DropPunctuation(la + lb);
    assert DropPunctuation(Lower(a + [c] + b)) == kept;
    if a + b == [] {
      assert kept == [];
      assert Strip(CollapseSpaces([])) == [];
    }
  }
}
