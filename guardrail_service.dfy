/**
 * `GuardrailService`: the hallucination check on a note against its
 * transcript. Medical entities of both texts are compared as sets (NER) and
 * each long enough summary sentence is classified against the transcript
 * (NLI). The NER and NLI models are inputs: a function from a text to its
 * entity list and a function from a (transcript, sentence) pair to the three
 * class scores, each `None` when the model failed to load.
 */
module GuardrailService {
  import opened Common
  import opened Schemas

  // ---------------------------------------------------------------------
  // Summary input and `_clean_summary`
  // ---------------------------------------------------------------------

  /** A value of a summary mapping: a string, a list of strings, or anything else (with its `str()`). */
  datatype SummaryValue = TextValue(text: string) | ListValue(items: seq<string>) | OtherValue(shown: string)

  /** The summary handed to the hallucination check: text, or a mapping in insertion order. */
  datatype SummaryInput = PlainSummary(text: string) | SummaryDict(entries: seq<(string, SummaryValue)>)

  /**
   * The end of a tag `\s*\((Updated|Correction)\)` starting at `p`, matched
   * without regard to case, if there is one.
   */
  function TagAt(s: string, p: nat): (r: Option<nat>)
    ensures r.Some? ==> p < r.value <= |s|
  {
    var q := p + SpaceRun(s, p);
    if q < |s| && s[q] == '(' then
      if q + 8 < |s| && Lower(s[q + 1..q + 8]) == "updated" && s[q + 8] == ')' then Some(q + 9)
      else if q + 11 < |s| && Lower(s[q + 1..q + 11]) == "correction" && s[q + 11] == ')' then Some(q + 12)
      else None
    else None
  }

  /** `re.sub(r"\s*\((Updated|Correction)\)", "", s[p..], flags=re.IGNORECASE)`: leftmost tags removed, left to right. */
  function RemoveTags(s: string, p: nat): string
    decreases |s| - p
  {
    if p >= |s| then []
    else
      var tag := TagAt(s, p);
      if tag.Some? then RemoveTags(s, tag.value) else [s[p]] + RemoveTags(s, p + 1)
  }

  /** The text parts of a summary mapping: list items with their tags removed, strings as they are, other values skipped. */
  function CleanParts(entries: seq<(string, SummaryValue)>): seq<string>
  {
    if entries == [] then []
    else
      var v := entries[|entries| - 1].1;
      CleanParts(entries[..|entries| - 1])
        + (if v.ListValue? then CleanItems(v.items) else if v.TextValue? then [v.text] else [])
  }

  function CleanItems(items: seq<string>): seq<string>
  {
    if items == [] then [] else CleanItems(items[..|items| - 1]) + [RemoveTags(items[|items| - 1], 0)]
  }

  /** What `_clean_summary` returns. */
  function CleanedText(summary: SummaryInput): string
  {
    match summary
    case PlainSummary(text) => text
    case SummaryDict(entries) => Join(". ", CleanParts(entries))
  }

  /** `_clean_summary`: text unchanged; a mapping flattened part by part. */
  method CleanSummary(summary: SummaryInput) returns (text: string)
    ensures text == CleanedText(summary)
  {
    if summary.PlainSummary? {
      return summary.text;
    }
    var entries := summary.entries;
    var textParts: seq<string> := [];
    var i := 0;
    while i < |entries|
      invariant 0 <= i <= |entries|
      invariant textParts == CleanParts(entries[..i])
    {
      var items := entries[i].1;
      assert entries[..i + 1][..i] == entries[..i];
      if items.ListValue? {
        var j := 0;
        ghost var before := textParts;
        while j < |items.items|
          invariant 0 <= j <= |items.items|
          invariant textParts == before + CleanItems(items.items[..j])
        {
          assert items.items[..j + 1][..j] == items.items[..j];
          textParts := textParts + [RemoveTags(items.items[j], 0)];
          j := j + 1;
        }
        assert items.items[..j] == items.items;
      } else if items.TextValue? {
        textParts := textParts + [items.text];
      }
      i := i + 1;
    }
    assert entries[..i] == entries;
    text := Join(". ", textParts);
  }

  /** Text without an opening parenthesis has no tag and is kept as it is. */
  lemma {:induction false} NoParenUnchanged(s: string, p: nat)
    requires p <= |s|
    requires forall i :: 0 <= i < |s| ==> s[i] != '('
    ensures RemoveTags(s, p) == s[p..]
    decreases |s| - p
  {
    if p < |s| {
      NoParenUnchanged(s, p + 1);
      assert s[p..] == [s[p]] + s[p + 1..];
    }
  }

  /** Removing tags never lengthens the text. */
  lemma {:induction false} RemoveTagsShrinks(s: string, p: nat)
    ensures |RemoveTags(s, p)| <= |s| - p || p >= |s|
    decreases |s| - p
  {
    if p < |s| {
      var tag := TagAt(s, p);
      if tag.Some? {
        RemoveTagsShrinks(s, tag.value);
      } else {
        RemoveTagsShrinks(s, p + 1);
      }
    }
  }

  /** Inside text without parentheses that does not end in whitespace, no tag starts. */
  lemma NoTagInside(s: string, a: nat, p: nat)
    requires p < a <= |s|
    requires forall i :: 0 <= i < a ==> s[i] != '('
    requires !IsSpace(s[a - 1])
    ensures TagAt(s, p).None?
  {
    SpaceRunStops(s, p, a - 1);
  }

  lemma {:induction false} SpaceRunStops(s: string, p: nat, stop: nat)
    requires p <= stop < |s| && !IsSpace(s[stop])
    ensures p + SpaceRun(s, p) <= stop
    decreases stop - p
  {
    if p < stop && IsSpace(s[p]) {
      SpaceRunStops(s, p + 1, stop);
    }
  }

  /** Tag-free stretches are copied. */
  lemma {:induction false} CopiesUntil(s: string, p: nat, a: nat)
    requires p <= a <= |s|
    requires forall i :: p <= i < a ==> TagAt(s, i).None?
    ensures RemoveTags(s, p) == s[p..a] + RemoveTags(s, a)
    decreases a - p
  {
    if p < a {
      var tail := RemoveTags(s, a);
      assert RemoveTags(s, p + 1) == s[p + 1..a] + tail by {
        CopiesUntil(s, p + 1, a);
      }
      assert RemoveTags(s, p) == [s[p]] + RemoveTags(s, p + 1) by {
        CopiesOne(s, p);
      }
      assert [s[p]] + (s[p + 1..a] + tail) == s[p..a] + tail by {
        assert s[p..a] == [s[p]] + s[p + 1..a];
      }
    }
  }

  /** A character where no tag starts is copied. */
  lemma CopiesOne(s: string, p: nat)
    requires p < |s| && TagAt(s, p).None?
    ensures RemoveTags(s, p) == [s[p]] + RemoveTags(s, p + 1)
  {
  }

  /**
   * A trailing `(Updated)` or `(Correction)` tag, in any case and with the
   * whitespace before it, is removed: `Headache (Updated)` becomes `Headache`.
   */
  lemma TrailingTagRemoved(a: string, spaces: string, tag: string)
    requires forall i :: 0 <= i < |a| ==> a[i] != '('
    requires a == [] || !IsSpace(a[|a| - 1])
    requires forall i :: 0 <= i < |spaces| ==> IsSpace(spaces[i])
    requires Lower(tag) == "updated" || Lower(tag) == "correction"
    ensures RemoveTags(a + spaces + "(" + tag + ")", 0) == a
  {
    var rest := spaces + "(" + tag + ")";
    var s := a + rest;
    assert a + spaces + "(" + tag + ")" == s;
    PrefixCopied(a, rest);
    assert s[0..|a|] == a;
    TagRestAtEnd(a, spaces, tag);
  }

  /** A parenthesis-free prefix not ending in whitespace is copied unchanged. */
  lemma PrefixCopied(a: string, rest: string)
    requires forall i :: 0 <= i < |a| ==> a[i] != '('
    requires a == [] || !IsSpace(a[|a| - 1])
    ensures RemoveTags(a + rest, 0) == (a + rest)[0..|a|] + RemoveTags(a + rest, |a|)
  {
    var s := a + rest;
    forall p | 0 <= p < |a|
      ensures TagAt(s, p).None?
    {
      assert forall i :: 0 <= i < |a| ==> s[i] == a[i];
      NoTagInside(s, |a|, p);
    }
    CopiesUntil(s, 0, |a|);
  }

  /** Whitespace and a tag running to the end of the text are one match, which removes them. */
  lemma TagRestAtEnd(a: string, spaces: string, tag: string)
    requires forall i :: 0 <= i < |spaces| ==> IsSpace(spaces[i])
    requires Lower(tag) == "updated" || Lower(tag) == "correction"
    ensures RemoveTags(a + (spaces + "(" + tag + ")"), |a|) == []
  {
    var s := a + (spaces + "(" + tag + ")");
    TailLayout(a, spaces, tag);
    SpaceRunIs(s, |a|, |spaces|);
    TagMatches(s, |a|, tag);
  }

  /** Where the whitespace, the parenthesis and the tag word sit in the text. */
  lemma TailLayout(a: string, spaces: string, tag: string)
    ensures var s := a + (spaces + "(" + tag + ")");
            var q := |a| + |spaces|;
            q < |s| - 1 && s[q] == '(' && s[|s| - 1] == ')' && s[q + 1..|s| - 1] == tag
            && forall i :: |a| <= i < q ==> s[i] == spaces[i - |a|]
  {
    var s := a + (spaces + "(" + tag + ")");
    var open := spaces + "(";
    var body := open + tag;
    assert s == a + (body + ")");
    assert body[|open|..] == tag;
    assert s[|a| + |spaces| + 1..|s| - 1] == body[|open|..];
  }

  /** After the whitespace from `p`, a parenthesis, a tag word and a closing parenthesis at the end of the text are one tag. */
  lemma TagMatches(s: string, p: nat, tag: string)
    requires p + SpaceRun(s, p) < |s| - 1
    requires s[p + SpaceRun(s, p)] == '(' && s[|s| - 1] == ')' && s[p + SpaceRun(s, p) + 1..|s| - 1] == tag
    requires Lower(tag) == "updated" || Lower(tag) == "correction"
    ensures TagAt(s, p) == Some(|s|)
  {
    var q := p + SpaceRun(s, p);
    if Lower(tag) == "updated" {
      assert |tag| == 7 && s[q + 1..q + 8] == tag;
    } else {
      assert |tag| == 10 && s[q + 1..q + 11] == tag;
      assert Lower(s[q + 1..q + 8])[0] == Lower(tag)[0] == 'c';
    }
  }

  // ---------------------------------------------------------------------
  // `_check_medical_ner`
  // ---------------------------------------------------------------------

  /** One item of the NER pipeline's output. */
  datatype NerItem = NerItem(group: Option<string>, word: string)

  /** The entity labels that count for the hallucination check. */
  const TargetLabels: set<string> := {
    "Disease_disorder", "Medication", "Sign_symptom", "Diagnostic_procedure", "Biological_structure",
    "Severity", "Date", "Duration", "Frequency", "Dosage"
  }

  /** `item.get('word').strip().lower()`. */
  function EntityWord(item: NerItem): string
  {
    Lower(Strip(item.word))
  }

  /** A target label and a word longer than two characters. */
  predicate Kept(item: NerItem)
  {
    item.group.Some? && item.group.value in TargetLabels && |EntityWord(item)| > 2
  }

  /** The `key`s of the items that pass `keep`, collected into a set. */
  function Collect(results: seq<NerItem>, keep: NerItem -> bool, key: NerItem -> string): set<string>
  {
    if results == [] then {}
    else
      var item := results[|results| - 1];
      Collect(results[..|results| - 1], keep, key) + (if keep(item) then {key(item)} else {})
  }

  /** `get_medical_entities`. */
  function Entities(results: seq<NerItem>): set<string>
  {
    Collect(results, Kept, EntityWord)
  }

  /** The collected set holds exactly the keys of the kept items. */
  lemma {:induction false} CollectMembers(results: seq<NerItem>, keep: NerItem -> bool, key: NerItem -> string)
    ensures forall e :: e in Collect(results, keep, key) <==>
              exists i :: 0 <= i < |results| && keep(results[i]) && key(results[i]) == e
  {
    if results != [] {
      var init := results[..|results| - 1];
      CollectMembers(init, keep, key);
      assert forall i :: 0 <= i < |init| ==> init[i] == results[i];
      forall e | exists i :: 0 <= i < |results| && keep(results[i]) && key(results[i]) == e
        ensures e in Collect(results, keep, key)
      {
        var i :| 0 <= i < |results| && keep(results[i]) && key(results[i]) == e;
        if i < |init| {
          assert init[i] == results[i];
        }
      }
    }
  }

  /** The entity set holds exactly the normalised words of the kept items, each longer than two characters. */
  lemma EntitiesMembers(results: seq<NerItem>)
    ensures forall e :: e in Entities(results) <==>
              exists i :: 0 <= i < |results| && Kept(results[i]) && EntityWord(results[i]) == e
    ensures forall e :: e in Entities(results) ==> |e| > 2
  {
    CollectMembers(results, Kept, EntityWord);
  }

  /** The loop of `get_medical_entities`. */
  method GetMedicalEntities(results: seq<NerItem>) returns (entities: set<string>)
    ensures entities == Entities(results)
  {
    entities := {};
    var i := 0;
    while i < |results|
      invariant 0 <= i <= |results|
      invariant entities == Entities(results[..i])
    {
      var item := results[i];
      var word := Lower(Strip(item.word));
      assert results[..i + 1][..i] == results[..i];
      assert word == EntityWord(item);
      assert Entities(results[..i + 1]) == entities + (if Kept(item) then {word} else {});
      if item.group.Some? && item.group.value in TargetLabels && |word| > 2 {
        entities := entities + {word};
      }
      i := i + 1;
    }
    assert results[..i] == results;
  }

  /** The four counts of the NER comparison. */
  datatype NerMetrics = NerMetrics(transcriptCount: nat, summaryCount: nat, matchedCount: nat, hallucinationCount: nat)

  const ZeroMetrics := NerMetrics(0, 0, 0, 0)

  datatype NerOutput = NerOutput(warnings: seq<string>, metrics: NerMetrics)

  /** `before + h + after` for every element `h` of the set, each once, in the set's iteration order. */
  method FlagEach(ents: set<string>, before: string, after: string) returns (warnings: seq<string>)
    ensures |warnings| == |ents|
    ensures forall w :: w in warnings <==> exists h :: h in ents && w == before + h + after
    ensures forall i, j :: 0 <= i < j < |warnings| ==> warnings[i] != warnings[j]
  {
    warnings := [];
    var rest := ents;
    ghost var done: set<string> := {};
    while rest != {}
      invariant rest <= ents && done == ents - rest
      invariant |warnings| == |done|
      invariant forall w :: w in warnings <==> exists h :: h in done && w == before + h + after
      invariant forall i, j :: 0 <= i < j < |warnings| ==> warnings[i] != warnings[j]
      decreases |rest|
    {
      assert (forall x :: x !in rest) ==> rest == {};
      var h :| h in rest;
      forall i | 0 <= i < |warnings|
        ensures warnings[i] != before + h + after
      {
        var w := warnings[i];
        assert w in warnings;
        var g :| g in done && w == before + g + after;
        WrappedInjective(before, g, h, after);
      }
      warnings := warnings + [before + h + after];
      rest := rest - {h};
      done := done + {h};
    }
  }

  /** Equal warnings come from equal words. */
  lemma WrappedInjective(before: string, g: string, h: string, after: string)
    ensures before + g + after == before + h + after ==> g == h
  {
    if before + g + after == before + h + after {
      assert |g| == |h|;
      assert g == (before + g + after)[|before|..|before| + |g|];
      assert h == (before + h + after)[|before|..|before| + |h|];
    }
  }

  function Unverified(h: string): string
  {
    "Unverified entity: '" + h + "'"
  }

  /** Summary entities the transcript does not have. */
  function Unsupported(transcript: string, summary: string, ner: string -> seq<NerItem>): set<string>
  {
    Entities(ner(summary)) - Entities(ner(transcript))
  }

  /** The metrics for two non-empty texts. */
  function MetricsOf(transcript: string, summary: string, ner: string -> seq<NerItem>): NerMetrics
  {
    var t := Entities(ner(transcript));
    var s := Entities(ner(summary));
    NerMetrics(|t|, |s|, |s * t|, |s - t|)
  }

  /**
   * `_check_medical_ner`: an empty text gives no warning and zero counts;
   * otherwise one `Unverified entity` warning per unsupported summary
   * entity, and the four set sizes.
   */
  method CheckMedicalNer(transcript: string, summary: string, ner: string -> seq<NerItem>) returns (output: NerOutput)
    ensures transcript == "" || summary == "" ==> output == NerOutput([], ZeroMetrics)
    ensures transcript != "" && summary != "" ==>
              output.metrics == MetricsOf(transcript, summary, ner)
              && |output.warnings| == |Unsupported(transcript, summary, ner)|
              && forall w :: w in output.warnings <==>
                   exists h :: h in Unsupported(transcript, summary, ner) && w == Unverified(h)
  {
    if transcript == "" || summary == "" {
      return NerOutput([], ZeroMetrics);
    }
    var transEnts := GetMedicalEntities(ner(transcript));
    var summEnts := GetMedicalEntities(ner(summary));
    var matchedEnts := summEnts * transEnts;
    var unsupportedEnts := summEnts - transEnts;
    var warnings := FlagEach(unsupportedEnts, "Unverified entity: '", "'");
    output := NerOutput(warnings, NerMetrics(|transEnts|, |summEnts|, |matchedEnts|, |unsupportedEnts|));
  }

  /** Matched and unsupported summary entities add up to all summary entities. */
  lemma MetricsAddUp(transcript: string, summary: string, ner: string -> seq<NerItem>)
    ensures var m := MetricsOf(transcript, summary, ner);
            m.matchedCount + m.hallucinationCount == m.summaryCount
            && m.matchedCount <= m.transcriptCount
  {
    var t := Entities(ner(transcript));
    var s := Entities(ner(summary));
    assert (s * t) + (s - t) == s;
    assert (s * t) * (s - t) == {};
    assert s * t <= t;
    SubsetCard(s * t, t);
  }

  lemma SubsetCard(a: set<string>, b: set<string>)
    requires a <= b
    ensures |a| <= |b|
  {
    assert b == a + (b - a);
  }

  // ---------------------------------------------------------------------
  // `_check_medical_nli`
  // ---------------------------------------------------------------------

  /** The cross-encoder's scores for one pair, in label order 0, 1, 2. */
  datatype NliScores = NliScores(contradiction: real, entailment: real, neutral: real)

  /** `score_array.argmax()`: the first index holding the largest score. */
  function ArgMax(sc: NliScores): (r: nat)
    ensures r <= 2
  {
    if sc.contradiction >= sc.entailment && sc.contradiction >= sc.neutral then 0
    else if sc.entailment >= sc.neutral then 1
    else 2
  }

  const LabelMap: map<nat, string> := map[0 := "contradiction", 1 := "entailment", 2 := "neutral"]

  /** The pieces, each passed through `norm`, that are longer than ten characters. */
  function LongPieces(pieces: seq<string>, norm: string -> string): seq<string>
  {
    if pieces == [] then []
    else
      var s := norm(pieces[|pieces| - 1]);
      LongPieces(pieces[..|pieces| - 1], norm) + (if |s| > 10 then [s] else [])
  }

  /** The summary's candidate sentences: the stripped `.`-pieces longer than ten characters. */
  function SummarySentences(summary: string): seq<string>
  {
    LongPieces(Split(summary, '.'), Strip)
  }

  /** The warning for one sentence: contradicted or neutral sentences are flagged, entailed ones are not. */
  function SentenceWarning(sentence: string, sc: NliScores): Option<string>
  {
    var tag := LabelMap[ArgMax(sc)];
    if tag == "contradiction" then Some("Medical Contradiction: '" + sentence + "' contradicts the transcript.")
    else if tag == "neutral" then Some("Unverified Fact: '" + sentence + "' is not explicitly supported.")
    else None
  }

  function NliWarnings(transcript: string, sentences: seq<string>, nli: (string, string) -> NliScores): seq<string>
  {
    if sentences == [] then []
    else
      var w := SentenceWarning(sentences[|sentences| - 1], nli(transcript, sentences[|sentences| - 1]));
      NliWarnings(transcript, sentences[..|sentences| - 1], nli) + (if w.Some? then [w.value] else [])
  }

  /** One more sentence adds its own warning, if any, at the end. */
  lemma NliStep(transcript: string, sentences: seq<string>, i: nat, nli: (string, string) -> NliScores)
    requires i < |sentences|
    ensures var w := SentenceWarning(sentences[i], nli(transcript, sentences[i]));
            NliWarnings(transcript, sentences[..i + 1], nli)
              == NliWarnings(transcript, sentences[..i], nli) + (if w.Some? then [w.value] else [])
  {
    assert sentences[..i + 1][..i] == sentences[..i];
  }

  /** `_check_medical_nli`: one prediction per candidate sentence, in order. */
  method CheckMedicalNli(transcript: string, summary: string, nli: (string, string) -> NliScores)
    returns (warnings: seq<string>)
    ensures warnings == NliWarnings(transcript, SummarySentences(summary), nli)
  {
    var summarySentences := SummarySentences(summary);
    if |summarySentences| == 0 {
      return [];
    }
    warnings := ClassifySentences(transcript, summarySentences, nli);
  }

  /** The loop of `_check_medical_nli`: classify each sentence against the transcript and flag it by its label. */
  method ClassifySentences(transcript: string, sentences: seq<string>, nli: (string, string) -> NliScores)
    returns (warnings: seq<string>)
    ensures warnings == NliWarnings(transcript, sentences, nli)
  {
    warnings := [];
    var i := 0;
    while i < |sentences|
      invariant 0 <= i <= |sentences|
      invariant warnings == NliWarnings(transcript, sentences[..i], nli)
    {
      var sentence := sentences[i];
      var predicted := LabelMap[ArgMax(nli(transcript, sentence))];
      NliStep(transcript, sentences, i, nli);
      if predicted == "contradiction" {
        warnings := warnings + ["Medical Contradiction: '" + sentence + "' contradicts the transcript."];
      } else if predicted == "neutral" {
        warnings := warnings + ["Unverified Fact: '" + sentence + "' is not explicitly supported."];
      }
      i := i + 1;
    }
    assert sentences[..i] == sentences;
  }

  /** Every candidate sentence is longer than ten characters and is the normalised form of a piece, in order. */
  lemma {:induction false} LongPiecesAre(pieces: seq<string>, norm: string -> string)
    ensures |LongPieces(pieces, norm)| <= |pieces|
    ensures forall k :: 0 <= k < |LongPieces(pieces, norm)| ==>
              |LongPieces(pieces, norm)[k]| > 10 && LongPieces(pieces, norm)[k] in Map(pieces, norm)
    ensures forall k :: 0 <= k < |pieces| && |norm(pieces[k])| > 10 ==> norm(pieces[k]) in LongPieces(pieces, norm)
  {
    if pieces != [] {
      var init := pieces[..|pieces| - 1];
      LongPiecesAre(init, norm);
      assert Map(pieces, norm) == Map(init, norm) + [norm(pieces[|pieces| - 1])];
      forall k | 0 <= k < |pieces| && |norm(pieces[k])| > 10
        ensures norm(pieces[k]) in LongPieces(pieces, norm)
      {
        if k < |init| {
          assert init[k] == pieces[k];
        }
      }
    }
  }

  /** `[norm(p) for p in pieces]`. */
  function Map(pieces: seq<string>, norm: string -> string): (r: seq<string>)
    ensures |r| == |pieces|
  {
    if pieces == [] then [] else Map(pieces[..|pieces| - 1], norm) + [norm(pieces[|pieces| - 1])]
  }

  /** A blank summary has no candidate sentence, so no NLI warning. */
  lemma BlankSummaryNoSentences(summary: string)
    requires IsBlank(summary)
    ensures SummarySentences(summary) == []
  {
    assert !IsSpace('.');
    SplitWithout(summary, '.');
    StripEmptyIffBlank(summary);
    assert LongPieces([summary], Strip) == LongPieces([], Strip) + [];
  }

  /** At most one NLI warning per sentence, and none when every sentence is entailed. */
  lemma {:induction false} NliWarningsBound(transcript: string, sentences: seq<string>, nli: (string, string) -> NliScores)
    ensures |NliWarnings(transcript, sentences, nli)| <= |sentences|
    ensures (forall k :: 0 <= k < |sentences| ==> ArgMax(nli(transcript, sentences[k])) == 1)
              ==> NliWarnings(transcript, sentences, nli) == []
  {
    if sentences != [] {
      NliWarningsBound(transcript, sentences[..|sentences| - 1], nli);
    }
  }

  // ---------------------------------------------------------------------
  // `_run_analysis_sync` and `check_hallucination`
  // ---------------------------------------------------------------------

  /** The result dictionary; `metrics` is `None` for the `{}` of the failure path. */
  datatype Report = Report(warnings: seq<string>, metrics: Option<NerMetrics>)

  /** Whether the NER step produces anything: a pipeline and two non-empty texts. */
  predicate NerRuns(transcript: string, summary: string, ner: Option<string -> seq<NerItem>>)
  {
    ner.Some? && transcript != "" && summary != ""
  }

  /**
   * What the analysis of two texts reports: the NER counts (zero without a
   * pipeline), one warning per unsupported entity in some order, then the
   * NLI warnings in sentence order when the model is loaded and the summary
   * is not blank.
   */
  ghost predicate AnalysisOf(transcript: string, summary: string, ner: Option<string -> seq<NerItem>>,
                             nli: Option<(string, string) -> NliScores>, result: Report)
  {
    var runs := NerRuns(transcript, summary, ner);
    var k := if runs then |Unsupported(transcript, summary, ner.value)| else 0;
    result.metrics == Some(if runs then MetricsOf(transcript, summary, ner.value) else ZeroMetrics)
    && k <= |result.warnings|
    && (runs ==> forall w :: w in result.warnings[..k] <==>
                   exists h :: h in Unsupported(transcript, summary, ner.value) && w == Unverified(h))
    && result.warnings[k..] == (if nli.Some? && Strip(summary) != ""
                                then NliWarnings(transcript, SummarySentences(summary), nli.value) else [])
  }

  /** `_run_analysis_sync`: NER first, then NLI. */
  method RunAnalysisSync(transcript: string, summary: string, ner: Option<string -> seq<NerItem>>,
                         nli: Option<(string, string) -> NliScores>)
    returns (result: Report)
    ensures AnalysisOf(transcript, summary, ner, nli, result)
  {
    var warnings: seq<string> := [];
    var metrics := ZeroMetrics;
    if ner.Some? {
      var nerOutput := CheckMedicalNer(transcript, summary, ner.value);
      warnings := warnings + nerOutput.warnings;
      metrics := nerOutput.metrics;
    }
    ghost var nerWarnings := warnings;
    if nli.Some? && Strip(summary) != "" {
      var nliWarnings := CheckMedicalNli(transcript, summary, nli.value);
      warnings := warnings + nliWarnings;
      assert warnings[..|nerWarnings|] == nerWarnings;
    }
    assert warnings[..|nerWarnings|] == nerWarnings;
    result := Report(warnings, Some(metrics));
  }

  /** Without an NER pipeline, or with an empty transcript, the counts are zero and every warning comes from NLI. */
  lemma NoNerOnlyNli(transcript: string, summary: string, ner: Option<string -> seq<NerItem>>,
                     nli: Option<(string, string) -> NliScores>, result: Report)
    requires AnalysisOf(transcript, summary, ner, nli, result)
    requires ner.None? || transcript == ""
    ensures result.metrics == Some(ZeroMetrics)
    ensures result.warnings == (if nli.Some? && Strip(summary) != ""
                                then NliWarnings(transcript, SummarySentences(summary), nli.value) else [])
  {
    assert result.warnings[0..] == result.warnings;
  }

  /** No NLI model and a summary whose entities the transcript all has: the analysis passes. */
  lemma SupportedPasses(transcript: string, summary: string, ner: string -> seq<NerItem>, result: Report)
    requires AnalysisOf(transcript, summary, Some(ner), None, result)
    requires Entities(ner(summary)) <= Entities(ner(transcript))
    ensures result.warnings == []
  {
    if NerRuns(transcript, summary, Some(ner)) {
      assert Unsupported(transcript, summary, ner) == {};
    }
    assert result.warnings == result.warnings[..0] + result.warnings[0..];
  }

  /**
   * `check_hallucination`: flatten both inputs and run the analysis; an
   * exception raised by a model (`raised`) gives no warning and empty metrics.
   */
  method CheckHallucination(transcript: seq<DialogueTurn>, summary: SummaryInput,
                            ner: Option<string -> seq<NerItem>>, nli: Option<(string, string) -> NliScores>,
                            raised: bool)
    returns (result: Report)
    ensures raised ==> result == Report([], None)
    ensures !raised ==> AnalysisOf(DialogueText(transcript), CleanedText(summary), ner, nli, result)
  {
    var transcriptText := DialogueText(transcript);
    var summaryText := CleanSummary(summary);
    if raised {
      return Report([], None);
    }
    result := RunAnalysisSync(transcriptText, summaryText, ner, nli);
  }
}
