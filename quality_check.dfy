/**
 * `QualityCheck`: the offline hallucination check over deduplicated
 * records. Each record's completion is checked against the transcript of
 * its chunk with the same NER and NLI analysis the backend uses; records
 * with no warning go to the quality file, the others, and every line that
 * raises, to the quarantine file.
 */
module QualityCheck {
  import opened Common
  import opened PipelineSchema
  import opened GuardrailService
  import opened DedupPath

  /** A history turn as stored: `content` and `chunk_index` may each be missing. */
  datatype QaTurn = QaTurn(content: Option<string>, chunk: Option<int>)

  /** A stored record as the quality check reads it; `None` is a missing key. */
  datatype QaRecord = QaRecord(history: Option<seq<QaTurn>>, chunkIndex: Option<int>, completion: Option<NoteField>)

  /**
   * How the completion reaches the analysis. `AsWritten` hands the note's
   * item dicts to a cleaner that expects strings; `Intended` hands it each
   * item's text.
   */
  datatype Reading = AsWritten | Intended

  /** The loaded models of the guardrail service; `None` for a model that failed to load. */
  datatype Checker = Checker(ner: Option<string -> seq<NerItem>>, nli: Option<(string, string) -> NliScores>)

  // ---------------------------------------------------------------------
  // `run_guardrail`
  // ---------------------------------------------------------------------

  /** `[t['content'] for t in transcript if t.get('chunk_index') == k]`: a matching turn without content raises. */
  function ChunkContents(turns: seq<QaTurn>, k: int): Result<seq<string>>
  {
    if turns == [] then Ok([])
    else
      var before := ChunkContents(turns[..|turns| - 1], k);
      var t := turns[|turns| - 1];
      if before.Err? then before
      else if t.chunk != Some(k) then before
      else if t.content.None? then Err("KeyError: 'content'")
      else Ok(before.value + [t.content.value])
  }

  /** `[t.get('content', '') for t in transcript]`. */
  function AllContents(turns: seq<QaTurn>): seq<string>
  {
    seq(|turns|, i requires 0 <= i < |turns| => OrDefault(turns[i].content, ""))
  }

  /** The transcript checked for chunk `k`: that chunk's turns, or every turn when none matches. */
  function TranscriptText(turns: seq<QaTurn>, k: int): Result<string>
  {
    match ChunkContents(turns, k)
    case Err(e) => Err(e)
    case Ok(target) => Ok(if target == [] then Join("\n", AllContents(turns)) else Join("\n", target))
  }

  /** Selecting the chunk's turns raises exactly when one of them has no content; it never selects more turns than there are. */
  lemma {:induction false} ChunkContentsOk(turns: seq<QaTurn>, k: int)
    ensures ChunkContents(turns, k).Ok? <==>
              forall i :: 0 <= i < |turns| && turns[i].chunk == Some(k) ==> turns[i].content.Some?
    ensures ChunkContents(turns, k).Ok? ==> |ChunkContents(turns, k).value| <= |turns|
  {
    if turns != [] {
      var init := turns[..|turns| - 1];
      ChunkContentsOk(init, k);
      assert forall i :: 0 <= i < |init| ==> init[i] == turns[i];
    }
  }

  /** With no turn of the chunk, the quality check falls back to the whole history. */
  lemma {:induction false} NoChunkTurnsAll(turns: seq<QaTurn>, k: int)
    requires forall i :: 0 <= i < |turns| ==> turns[i].chunk != Some(k)
    ensures TranscriptText(turns, k) == Ok(Join("\n", AllContents(turns)))
  {
    NoMatchEmpty(turns, k);
  }

  lemma {:induction false} NoMatchEmpty(turns: seq<QaTurn>, k: int)
    requires forall i :: 0 <= i < |turns| ==> turns[i].chunk != Some(k)
    ensures ChunkContents(turns, k) == Ok([])
  {
    if turns != [] {
      NoMatchEmpty(turns[..|turns| - 1], k);
    }
  }

  /** The selected turns are exactly the chunk's turns, in order. */
  lemma {:induction false} ChunkContentsAre(turns: seq<QaTurn>, k: int)
    requires ChunkContents(turns, k).Ok?
    ensures ChunkContents(turns, k).value == ContentsWhere(turns, k)
  {
    if turns != [] {
      ChunkContentsAre(turns[..|turns| - 1], k);
    }
  }

  /** The contents of the turns tagged with chunk `k`, in order. */
  function ContentsWhere(turns: seq<QaTurn>, k: int): seq<string>
  {
    if turns == [] then []
    else
      var t := turns[|turns| - 1];
      ContentsWhere(turns[..|turns| - 1], k) + (if t.chunk == Some(k) then [OrDefault(t.content, "")] else [])
  }

  /** Records unrolled by the parser carry no chunk on their turns, so the whole history is checked. */
  lemma ParsedHistoryChecksAll(turns: seq<QaTurn>, k: int)
    requires forall i :: 0 <= i < |turns| ==> turns[i].chunk.None?
    ensures TranscriptText(turns, k) == Ok(Join("\n", AllContents(turns)))
  {
    NoChunkTurnsAll(turns, k);
  }

  /** `rec.get("completion") or SOAPNote().model_dump()`: a missing or empty completion is the empty note. */
  function CompletionNote(completion: Option<NoteField>): (r: SoapSections)
    ensures completion.None? || completion.value.EmptyDict? ==> r == EmptySections()
    ensures completion.Some? && completion.value.SectionsDict? ==> r == completion.value.sections
  {
    if completion.Some? && completion.value.SectionsDict? then completion.value.sections else EmptySections()
  }

  /** The texts of a section's items. */
  function Texts(items: seq<ItemDict>): seq<string>
  {
    seq(|items|, i requires 0 <= i < |items| => items[i].text)
  }

  /** Whether a note has any item at all. */
  predicate HasItems(note: SoapSections)
  {
    note.subjective != [] || note.objective != [] || note.assessment != [] || note.plan != []
  }

  /**
   * The note as the cleaner receives it. The items of a dumped note are
   * dicts, and the tag-removing substitution raises on the first one; read
   * as intended, each item contributes its text.
   */
  function SummaryOf(note: SoapSections, reading: Reading): (r: Result<SummaryInput>)
    ensures reading.Intended? ==> r.Ok?
    ensures reading.AsWritten? ==> (r.Err? <==> HasItems(note))
  {
    if reading.AsWritten? && HasItems(note) then Err("TypeError: expected string or bytes-like object")
    else
      Ok(SummaryDict([("subjective", ListValue(Texts(note.subjective))), ("objective", ListValue(Texts(note.objective))),
                      ("assessment", ListValue(Texts(note.assessment))), ("plan", ListValue(Texts(note.plan)))]))
  }

  /** The two texts `run_guardrail` analyses: the selected transcript, then the cleaned summary. */
  function Inputs(rec: QaRecord, reading: Reading): Result<(string, string)>
  {
    var turns := OrDefault(rec.history, []);
    var k := OrDefault(rec.chunkIndex, 0);
    match TranscriptText(turns, k)
    case Err(e) => Err(e)
    case Ok(transcript) =>
      match SummaryOf(CompletionNote(rec.completion), reading)
      case Err(e) => Err(e)
      case Ok(summary) => Ok((transcript, CleanedText(summary)))
  }

  /** Whether the analysis of two texts passes: no unsupported entity and no NLI warning. */
  predicate Passes(transcript: string, summary: string, c: Checker)
  {
    (!NerRuns(transcript, summary, c.ner) || Unsupported(transcript, summary, c.ner.value) == {})
    && (c.nli.None? || Strip(summary) == "" || NliWarnings(transcript, SummarySentences(summary), c.nli.value) == [])
  }

  /** The warning list is empty exactly when the analysis passes, whatever order the NER warnings come in. */
  lemma PassIff(transcript: string, summary: string, c: Checker, result: Report)
    requires AnalysisOf(transcript, summary, c.ner, c.nli, result)
    ensures result.warnings == [] <==> Passes(transcript, summary, c)
  {
    var runs := NerRuns(transcript, summary, c.ner);
    var k := if runs then |Unsupported(transcript, summary, c.ner.value)| else 0;
    assert result.warnings[0..] == result.warnings;
    if result.warnings == [] {
      assert k == 0;
    }
  }

  /** `run_guardrail`: select the transcript, clean the summary, run the analysis and return its warnings. */
  method RunGuardrail(c: Checker, rec: QaRecord, reading: Reading) returns (r: Result<seq<string>>)
    ensures r.Err? <==> Inputs(rec, reading).Err?
    ensures r.Err? ==> r.error == Inputs(rec, reading).error
    ensures r.Ok? ==> var (t, s) := Inputs(rec, reading).value;
                      exists m :: AnalysisOf(t, s, c.ner, c.nli, Report(r.value, m))
  {
    var turns := OrDefault(rec.history, []);
    var k := OrDefault(rec.chunkIndex, 0);
    var transcriptText := TranscriptText(turns, k);
    if transcriptText.Err? {
      return Err(transcriptText.error);
    }
    var summary := SummaryOf(CompletionNote(rec.completion), reading);
    if summary.Err? {
      return Err(summary.error);
    }
    var summaryText := CleanSummary(summary.value);
    var result := RunAnalysisSync(transcriptText.value, summaryText, c.ner, c.nli);
    r := Ok(result.warnings);
  }

  // ---------------------------------------------------------------------
  // `process_file`
  // ---------------------------------------------------------------------

  /** What becomes of one non-blank line. */
  datatype Verdict = Passed(rec: QaRecord)
                   | Failed(rec: QaRecord, transcript: string, summary: string)
                   | Raised(error: string, line: string)

  /** The verdict on a stripped line. */
  function VerdictOf(line: string, decode: string -> Option<QaRecord>, c: Checker, reading: Reading): Verdict
  {
    match decode(line)
    case None => Raised("JSONDecodeError", line)
    case Some(rec) =>
      match Inputs(rec, reading)
      case Err(e) => Raised(e, line)
      case Ok(texts) => if Passes(texts.0, texts.1, c) then Passed(rec) else Failed(rec, texts.0, texts.1)
  }

  /** The verdicts `judge` gives a file's non-blank lines, stripped, in order. */
  function Verdicts(lines: seq<string>, judge: string -> Verdict): seq<Verdict>
  {
    if lines == [] then []
    else
      var line := Strip(lines[|lines| - 1]);
      Verdicts(lines[..|lines| - 1], judge) + (if line == "" then [] else [judge(line)])
  }

  /** The verdicts on a file's lines. */
  function FileVerdicts(lines: seq<string>, decode: string -> Option<QaRecord>, c: Checker, reading: Reading): seq<Verdict>
  {
    Verdicts(lines, line => VerdictOf(line, decode, c, reading))
  }

  /** Taking one more line adds its verdict, unless it is blank. */
  lemma FileVerdictsStep(lines: seq<string>, i: nat, decode: string -> Option<QaRecord>, c: Checker, reading: Reading)
    requires i < |lines|
    ensures FileVerdicts(lines[..i + 1], decode, c, reading)
            == FileVerdicts(lines[..i], decode, c, reading)
               + (if Strip(lines[i]) == "" then [] else [VerdictOf(Strip(lines[i]), decode, c, reading)])
  {
    assert lines[..i + 1][..i] == lines[..i];
  }

  /** A record with its `qa_warnings` and `qa_pass` tags, or a line that raised. */
  datatype QaOut = Tagged(rec: QaRecord, warnings: seq<string>, pass: bool) | Broken(qaError: string, rawLine: string)

  /** The quality file: the passing records, tagged with no warning. */
  function QualityOf(vs: seq<Verdict>): seq<QaOut>
  {
    if vs == [] then []
    else
      var v := vs[|vs| - 1];
      QualityOf(vs[..|vs| - 1]) + (if v.Passed? then [Tagged(v.rec, [], true)] else [])
  }

  /** The verdicts that send a line to quarantine. */
  function Failures(vs: seq<Verdict>): seq<Verdict>
  {
    if vs == [] then []
    else
      var v := vs[|vs| - 1];
      Failures(vs[..|vs| - 1]) + (if v.Passed? then [] else [v])
  }

  /** The NER counts the analysis of two texts reports. */
  function MetricsFor(transcript: string, summary: string, c: Checker): Option<NerMetrics>
  {
    Some(if NerRuns(transcript, summary, c.ner) then MetricsOf(transcript, summary, c.ner.value) else ZeroMetrics)
  }

  /** What the quarantine file holds for a failing verdict. */
  ghost predicate Explains(v: Verdict, out: QaOut, c: Checker)
  {
    match v
    case Passed(_) => false
    case Raised(e, line) => out == Broken(e, line)
    case Failed(rec, t, s) =>
      out.Tagged? && out.rec == rec && !out.pass && out.warnings != []
      && AnalysisOf(t, s, c.ner, c.nli, Report(out.warnings, MetricsFor(t, s, c)))
  }

  /**
   * `process_file`: blank lines are skipped and not counted; every other
   * line is one record in exactly one of the two files, passing records in
   * the quality file and all others in quarantine, each in input order.
   */
  method ProcessFile(lines: seq<string>, decode: string -> Option<QaRecord>, c: Checker, reading: Reading)
    returns (quality: seq<QaOut>, quarantine: seq<QaOut>, total: nat, passed: nat, failed: nat)
    ensures quality == QualityOf(FileVerdicts(lines, decode, c, reading))
    ensures |quarantine| == |Failures(FileVerdicts(lines, decode, c, reading))|
    ensures forall j :: 0 <= j < |quarantine| ==> Explains(Failures(FileVerdicts(lines, decode, c, reading))[j], quarantine[j], c)
    ensures total == |FileVerdicts(lines, decode, c, reading)| && passed == |quality| && failed == |quarantine|
  {
    quality, quarantine := [], [];
    total := 0;
    var i := 0;
    while i < |lines|
      invariant 0 <= i <= |lines|
      invariant quality == QualityOf(FileVerdicts(lines[..i], decode, c, reading))
      invariant AllExplained(Failures(FileVerdicts(lines[..i], decode, c, reading)), quarantine, c)
      invariant total == |FileVerdicts(lines[..i], decode, c, reading)|
    {
      FileVerdictsStep(lines, i, decode, c, reading);
      ghost var vs := FileVerdicts(lines[..i], decode, c, reading);
      var line := Strip(lines[i]);
      if line != "" {
        total := total + 1;
        quality, quarantine := RouteLine(vs, line, decode, c, reading, quality, quarantine);
      } else {
        assert FileVerdicts(lines[..i + 1], decode, c, reading) == vs;
      }
      i := i + 1;
    }
    assert lines[..i] == lines;
    AllExplainedMeans(Failures(FileVerdicts(lines, decode, c, reading)), quarantine, c);
    passed, failed := |quality|, |quarantine|;
  }

  /** One non-blank line: check it and append its output to the file its verdict sends it to. */
  method RouteLine(ghost vs: seq<Verdict>, line: string, decode: string -> Option<QaRecord>, c: Checker, reading: Reading,
                   quality: seq<QaOut>, quarantine: seq<QaOut>)
    returns (quality': seq<QaOut>, quarantine': seq<QaOut>)
    requires quality == QualityOf(vs)
    requires AllExplained(Failures(vs), quarantine, c)
    ensures quality' == QualityOf(vs + [VerdictOf(line, decode, c, reading)])
    ensures AllExplained(Failures(vs + [VerdictOf(line, decode, c, reading)]), quarantine', c)
  {
    ghost var v := VerdictOf(line, decode, c, reading);
    AppendVerdict(vs, v);
    var out := CheckLine(line, decode, c, reading);
    if out.Tagged? && out.pass {
      quality', quarantine' := quality + [out], quarantine;
      assert Failures(vs + [v]) == Failures(vs);
    } else {
      quality', quarantine' := quality, quarantine + [out];
      ghost var fs := Failures(vs) + [v];
      assert fs[..|fs| - 1] == Failures(vs);
      assert (quarantine + [out])[..|quarantine|] == quarantine;
      assert AllExplained(fs, quarantine + [out], c);
    }
  }

  /** Each failing verdict, in order, is explained by the quarantine output in the same place. */
  ghost predicate AllExplained(vs: seq<Verdict>, outs: seq<QaOut>, c: Checker)
  {
    |vs| == |outs|
    && (vs != [] ==> AllExplained(vs[..|vs| - 1], outs[..|outs| - 1], c) && Explains(vs[|vs| - 1], outs[|outs| - 1], c))
  }

  lemma {:induction false} AllExplainedMeans(vs: seq<Verdict>, outs: seq<QaOut>, c: Checker)
    requires AllExplained(vs, outs, c)
    ensures |vs| == |outs| && forall j :: 0 <= j < |outs| ==> Explains(vs[j], outs[j], c)
  {
    if vs != [] {
      var n := |vs| - 1;
      AllExplainedMeans(vs[..n], outs[..n], c);
      forall j | 0 <= j < |outs|
        ensures Explains(vs[j], outs[j], c)
      {
        if j < n {
          assert vs[..n][j] == vs[j] && outs[..n][j] == outs[j];
        }
      }
    }
  }

  /** One more verdict adds to one of the two files. */
  lemma AppendVerdict(vs: seq<Verdict>, v: Verdict)
    ensures QualityOf(vs + [v]) == QualityOf(vs) + (if v.Passed? then [Tagged(v.rec, [], true)] else [])
    ensures Failures(vs + [v]) == Failures(vs) + (if v.Passed? then [] else [v])
  {
    assert (vs + [v])[..|vs|] == vs;
  }

  /** The body of the loop for one non-blank line: decode, check and tag, or catch what was raised. */
  method CheckLine(line: string, decode: string -> Option<QaRecord>, c: Checker, reading: Reading) returns (out: QaOut)
    ensures var v := VerdictOf(line, decode, c, reading);
            (v.Passed? ==> out == Tagged(v.rec, [], true))
            && (!v.Passed? ==> Explains(v, out, c) && !(out.Tagged? && out.pass))
  {
    var rec := decode(line);
    if rec.None? {
      return Broken("JSONDecodeError", line);
    }
    var warnings := RunGuardrail(c, rec.value, reading);
    if warnings.Err? {
      return Broken(warnings.error, line);
    }
    ghost var texts := Inputs(rec.value, reading).value;
    ghost var m :| AnalysisOf(texts.0, texts.1, c.ner, c.nli, Report(warnings.value, m));
    PassIff(texts.0, texts.1, c, Report(warnings.value, m));
    out := Tagged(rec.value, warnings.value, |warnings.value| == 0);
  }

  /** Each non-blank line lands in exactly one file: the two files together hold as many records as were counted. */
  lemma {:induction false} OutputsPartition(vs: seq<Verdict>)
    ensures |QualityOf(vs)| + |Failures(vs)| == |vs|
  {
    if vs != [] {
      OutputsPartition(vs[..|vs| - 1]);
    }
  }

  // ---------------------------------------------------------------------
  // The cleaner and item dicts
  // ---------------------------------------------------------------------

  /** A note without items passes whatever the transcript, read either way: its summary text is empty. */
  lemma EmptyNotePasses(rec: QaRecord, c: Checker, reading: Reading)
    requires !HasItems(CompletionNote(rec.completion))
    requires Inputs(rec, reading).Ok?
    ensures Inputs(rec, reading).value.1 == ""
    ensures Passes(Inputs(rec, reading).value.0, "", c)
  {
    var note := CompletionNote(rec.completion);
    assert note == EmptySections();
    var entries := [("subjective", ListValue([])), ("objective", ListValue([])),
                    ("assessment", ListValue([])), ("plan", ListValue([]))];
    assert SummaryOf(note, reading) == Ok(SummaryDict(entries));
    EmptyListsNoParts(entries);
    assert Strip("") == "";
  }

  /** Entries that are all empty lists contribute no text. */
  lemma {:induction false} EmptyListsNoParts(entries: seq<(string, SummaryValue)>)
    requires forall i :: 0 <= i < |entries| ==> entries[i].1 == ListValue([])
    ensures CleanParts(entries) == []
  {
    if entries != [] {
      EmptyListsNoParts(entries[..|entries| - 1]);
      assert CleanItems([]) == [];
    }
  }

  /**
   * As written, no record is ever flagged: a completion with items makes
   * the cleaner raise, so the line is quarantined as broken, and one
   * without items has nothing to check and passes.
   */
  lemma AsWrittenNeverFlags(line: string, decode: string -> Option<QaRecord>, c: Checker)
    ensures !VerdictOf(line, decode, c, AsWritten).Failed?
    ensures (decode(line).Some? && HasItems(CompletionNote(decode(line).value.completion)))
            ==> VerdictOf(line, decode, c, AsWritten).Raised?
  {
    if decode(line).Some? && Inputs(decode(line).value, AsWritten).Ok? {
      EmptyNotePasses(decode(line).value, c, AsWritten);
    }
  }

  /**
   * Read as intended, a record whose transcript can be selected is always
   * analysed, against the cleaned text of its items, and it fails exactly
   * when the analysis warns.
   */
  lemma IntendedChecksItems(line: string, decode: string -> Option<QaRecord>, c: Checker)
    requires decode(line).Some?
    requires TranscriptText(OrDefault(decode(line).value.history, []), OrDefault(decode(line).value.chunkIndex, 0)).Ok?
    ensures var rec := decode(line).value;
            var note := CompletionNote(rec.completion);
            var t := TranscriptText(OrDefault(rec.history, []), OrDefault(rec.chunkIndex, 0)).value;
            var s := CleanedText(SummaryOf(note, Intended).value);
            VerdictOf(line, decode, c, Intended) == (if Passes(t, s, c) then Passed(rec) else Failed(rec, t, s))
  {
  }

  // ---------------------------------------------------------------------
  // `process_target`
  // ---------------------------------------------------------------------

  /** Where the results for one input file go: its basename in the quality and the quarantine directory. */
  function OutputPaths(inputPath: string, qualityDir: string, quarantineDir: string): (string, string)
  {
    var fname := Basename(inputPath);
    (PathJoin(qualityDir, fname), PathJoin(quarantineDir, fname))
  }

  /** Both outputs keep the input file's name. */
  lemma OutputsKeepName(inputPath: string, qualityDir: string, quarantineDir: string)
    requires Basename(inputPath) != []
    ensures var (q, r) := OutputPaths(inputPath, qualityDir, quarantineDir);
            Basename(q) == Basename(inputPath) && Basename(r) == Basename(inputPath)
  {
    BasenameOfJoin(qualityDir, Basename(inputPath));
    BasenameOfJoin(quarantineDir, Basename(inputPath));
  }

  /** Input files with different names never write to the same output file. */
  lemma DistinctNamesDistinctOutputs(a: string, b: string, qualityDir: string, quarantineDir: string)
    requires Basename(a) != [] && Basename(b) != [] && Basename(a) != Basename(b)
    ensures OutputPaths(a, qualityDir, quarantineDir).0 != OutputPaths(b, qualityDir, quarantineDir).0
    ensures OutputPaths(a, qualityDir, quarantineDir).1 != OutputPaths(b, qualityDir, quarantineDir).1
  {
    OutputsKeepName(a, qualityDir, quarantineDir);
    OutputsKeepName(b, qualityDir, quarantineDir);
  }
}
