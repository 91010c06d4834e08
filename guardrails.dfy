/**
 * `Guardrails`: the earlier hallucination check, kept beside
 * `GuardrailService`. It shares the entity extraction and the NLI step but
 * flattens a note differently, runs NER without the empty-text guard,
 * words its entity warnings differently, reports no counts, and runs NLI
 * without the blank-summary guard.
 */
module Guardrails {
  import opened Common
  import opened Schemas
  import opened GuardrailService

  /** The summary handed to the hallucination check: text, or a mapping whose values are given as their `str()`. */
  datatype LegacySummary = LegacyText(text: string) | LegacyDict(fields: map<string, string>)

  /** The four note sections read from a mapping, in order. */
  const SectionKeys: seq<string> := ["subjective", "objective", "assessment", "plan"]

  /** `str(summary.get(key, ""))`. */
  function Section(fields: map<string, string>, key: string): string
  {
    if key in fields then fields[key] else ""
  }

  /** The non-empty strings, in order. */
  function NonEmpty(parts: seq<string>): (r: seq<string>)
    ensures |r| <= |parts|
    ensures forall k :: 0 <= k < |r| ==> r[k] != "" && r[k] in parts
  {
    if parts == [] then []
    else NonEmpty(parts[..|parts| - 1]) + (if parts[|parts| - 1] != "" then [parts[|parts| - 1]] else [])
  }

  /** The sections of a mapping in note order. */
  function Sections(fields: map<string, string>): seq<string>
  {
    [Section(fields, "subjective"), Section(fields, "objective"), Section(fields, "assessment"), Section(fields, "plan")]
  }

  /** The summary text the hallucination check works on. */
  function SummaryText(summary: LegacySummary): string
  {
    match summary
    case LegacyText(text) => text
    case LegacyDict(fields) => Join(". ", NonEmpty(Sections(fields)))
  }

  /** Empty parts drop out and the others keep their order. */
  lemma {:induction false} NonEmptyKeepsOrder(parts: seq<string>)
    ensures forall p :: p in NonEmpty(parts) <==> p in parts && p != ""
    ensures (forall k :: 0 <= k < |parts| ==> parts[k] != "") ==> NonEmpty(parts) == parts
  {
    if parts != [] {
      var init := parts[..|parts| - 1];
      NonEmptyKeepsOrder(init);
      assert parts == init + [parts[|parts| - 1]];
    }
  }

  /** A note with all four sections filled flattens to the four joined by `. `. */
  lemma FullNoteText(fields: map<string, string>)
    requires forall k :: 0 <= k < |SectionKeys| ==> Section(fields, SectionKeys[k]) != ""
    ensures SummaryText(LegacyDict(fields)) == Join(". ", Sections(fields))
  {
    var parts := Sections(fields);
    assert forall k :: 0 <= k < 4 ==> parts[k] == Section(fields, SectionKeys[k]);
    NonEmptyKeepsOrder(parts);
  }

  /** A note with only an assessment flattens to the assessment alone. */
  lemma AssessmentOnlyText(fields: map<string, string>)
    requires Section(fields, "subjective") == "" && Section(fields, "objective") == ""
    requires Section(fields, "plan") == ""
    ensures SummaryText(LegacyDict(fields)) == Section(fields, "assessment")
  {
    var parts := Sections(fields);
    assert parts[..1][..0] == [];
    assert NonEmpty(parts[..1]) == [];
    assert parts[..2][..1] == parts[..1];
    assert NonEmpty(parts[..2]) == [];
    assert parts[..3][..2] == parts[..2];
    assert NonEmpty(parts[..3]) == (if parts[2] != "" then [parts[2]] else []);
    assert parts[..3] == parts[..|parts| - 1];
  }

  /** Keys other than the four sections are ignored. */
  lemma OtherKeysIgnored(fields: map<string, string>, key: string, value: string)
    requires key !in SectionKeys
    ensures SummaryText(LegacyDict(fields[key := value])) == SummaryText(LegacyDict(fields))
  {
    assert Sections(fields[key := value]) == Sections(fields);
  }

  function Hallucination(ent: string): string
  {
    "Entity Hallucination: Medical term '" + ent + "' found in summary but not in transcript."
  }

  /** `_check_medical_ner`: one warning per summary entity the transcript does not have. */
  method CheckMedicalNer(transcript: string, summary: string, ner: string -> seq<NerItem>) returns (warnings: seq<string>)
    ensures |warnings| == |Unsupported(transcript, summary, ner)|
    ensures forall w :: w in warnings <==> exists h :: h in Unsupported(transcript, summary, ner) && w == Hallucination(h)
  {
    var transEnts := GetMedicalEntities(ner(transcript));
    var summEnts := GetMedicalEntities(ner(summary));
    var unsupportedEnts := summEnts - transEnts;
    warnings := FlagEach(unsupportedEnts, "Entity Hallucination: Medical term '", "' found in summary but not in transcript.");
  }

  /** The summary text `check_hallucination` builds: a mapping's non-empty sections joined by `". "`. */
  method JoinSummary(summary: LegacySummary) returns (summaryText: string)
    ensures summaryText == SummaryText(summary)
  {
    if summary.LegacyDict? {
      var parts: seq<string> := [];
      var i := 0;
      var sections := Sections(summary.fields);
      while i < |sections|
        invariant 0 <= i <= |sections|
        invariant parts == NonEmpty(sections[..i])
      {
        assert sections[..i + 1][..i] == sections[..i];
        if sections[i] != "" {
          parts := parts + [sections[i]];
        }
        i := i + 1;
      }
      assert sections[..i] == sections;
      summaryText := Join(". ", parts);
    } else {
      summaryText := summary.text;
    }
  }

  /**
   * `check_hallucination`: NER warnings when the pipeline is loaded, then
   * the NLI warnings, in sentence order, when the model is loaded.
   */
  method CheckHallucination(transcript: seq<DialogueTurn>, summary: LegacySummary,
                            ner: Option<string -> seq<NerItem>>, nli: Option<(string, string) -> NliScores>)
    returns (warnings: seq<string>)
    ensures var t := DialogueText(transcript);
            var s := SummaryText(summary);
            var k := if ner.Some? then |Unsupported(t, s, ner.value)| else 0;
            k <= |warnings|
            && (ner.Some? ==> forall w :: w in warnings[..k] <==>
                                exists h :: h in Unsupported(t, s, ner.value) && w == Hallucination(h))
            && warnings[k..] == (if nli.Some? then NliWarnings(t, SummarySentences(s), nli.value) else [])
  {
    warnings := [];
    var transcriptText := DialogueText(transcript);
    var summaryText := JoinSummary(summary);
    if ner.Some? {
      var nerWarnings := CheckMedicalNer(transcriptText, summaryText, ner.value);
      warnings := warnings + nerWarnings;
    }
    ghost var nerWarnings := warnings;
    if nli.Some? {
      var nliWarnings := CheckMedicalNli(transcriptText, summaryText, nli.value);
      warnings := warnings + nliWarnings;
    }
    assert warnings[..|nerWarnings|] == nerWarnings;
  }

  /** Dropping the blank-summary guard changes nothing: a blank summary has no sentence to classify. */
  lemma BlankGuardRedundant(transcript: string, summary: string, nli: (string, string) -> NliScores)
    requires IsBlank(summary)
    ensures NliWarnings(transcript, SummarySentences(summary), nli) == []
  {
    BlankSummaryNoSentences(summary);
  }

  /** `check_safety`: this version raises no safety alert. */
  function CheckSafety(summary: string): (r: seq<string>)
    ensures r == []
  {
    []
  }
}
