/**
 * `Parse`: reading one session log line and unrolling it into one record
 * per chunk index. A log names its session, holds an input context whose
 * `history` is JSON text, and holds the chosen and rejected notes as JSON
 * text. Each record carries the history up to its chunk, the note items
 * from earlier chunks as context and the items of its own chunk as target.
 *
 * Three places where the code does not do what it evidently means are
 * modelled both ways, selected by `Reading`: the history fallback that a
 * second decode outside the `try` makes unreachable, the chunk indices that
 * per-turn validation drops, and the `(turns, transcript)` pair passed
 * where the schema wants the list of turns.
 */
module Parse {
  import opened Common
  import opened Document
  import opened PipelineSchema
  import opened Transform

  /** `entry["input_context"]`; `None` is a missing key. */
  datatype InputContext = InputContext(history: Option<string>, systemPrompt: Option<string>,
                                       suffixPrompt: Option<string>)

  /** One decoded log line; `None` is a missing key. */
  datatype LogEntry = LogEntry(sessionId: Option<string>, context: InputContext,
                               chosen: Option<string>, rejected: Option<string>,
                               taskType: Option<string>, action: Option<string>,
                               sessionStart: Option<string>, createdAt: Option<string>)

  /**
   * The library calls: `json.loads` of a history text (`None` when the text
   * is not JSON), `json.loads` of a note text, and `SOAPNote` validation.
   */
  datatype Codecs = Codecs(decodeHistory: string -> Option<seq<RawTurn>>,
                           decodeNote: string -> Option<SoapData>,
                           validateNote: SoapData -> Option<Note>)

  /** The code as written, or as evidently intended. */
  datatype Reading = AsWritten | Intended

  /** `settings.data_pipeline_version`. */
  const PipelineVersion: string := "v1.0.0"

  /** `not session_id`: missing or empty. */
  predicate MissingSession(entry: LogEntry)
  {
    entry.sessionId.None? || entry.sessionId == Some("")
  }

  /**
   * The raw history turns. A missing key decodes as `"[]"`. Text that is not
   * JSON is caught and replaced by `[]`, but is then decoded again outside
   * the `try`, so as written the failure escapes.
   */
  function HistoryTurns(ctx: InputContext, decode: string -> Option<seq<RawTurn>>, reading: Reading)
    : (r: Option<seq<RawTurn>>)
    ensures ctx.history.None? ==> r == Some([])
    ensures ctx.history.Some? && decode(ctx.history.value).Some? ==> r == decode(ctx.history.value)
    ensures ctx.history.Some? && decode(ctx.history.value).None? ==> (r.None? <==> reading.AsWritten?)
  {
    if ctx.history.None? then Some([])
    else match decode(ctx.history.value)
      case Some(turns) => Some(turns)
      case None => if reading.Intended? then Some([]) else None
  }

  /**
   * `validate_data(turn, DialogueTurn)`: role and content are required; the
   * dump has no `chunk_index`, which the intended reading keeps.
   */
  function ValidateTurn(t: RawTurn, reading: Reading): Option<RawTurn>
  {
    if t.role.Some? && t.content.Some? then
      Some(RawTurn(t.role, t.content, if reading == Intended then t.chunk else None))
    else None
  }

  /** Every turn validated, or `None` when one fails. */
  function ValidateTurns(turns: seq<RawTurn>, reading: Reading): (r: Option<seq<RawTurn>>)
    ensures r.Some? <==> forall i :: 0 <= i < |turns| ==> turns[i].role.Some? && turns[i].content.Some?
    ensures r.Some? ==> |r.value| == |turns|
    ensures r.Some? ==> forall i :: 0 <= i < |turns| ==>
              r.value[i] == RawTurn(turns[i].role, turns[i].content, if reading == Intended then turns[i].chunk else None)
  {
    if turns == [] then Some([])
    else
      match (ValidateTurns(turns[..|turns| - 1], reading), ValidateTurn(turns[|turns| - 1], reading))
      case (Some(init), Some(last)) => Some(init + [last])
      case _ => None
  }

  /** `parse_soap_safe`: the decoded note, or `{}` when the field is missing or is not JSON. */
  function NoteSource(field: Option<string>, decode: string -> Option<SoapData>): (r: SoapData)
    ensures field.None? ==> r == SoapDict(map[])
    ensures field.Some? ==> r == (if decode(field.value).Some? then decode(field.value).value else SoapDict(map[]))
  {
    if field.None? then SoapDict(map[])
    else match decode(field.value)
      case Some(d) => d
      case None => SoapDict(map[])
  }

  /** What `parse_and_validate_entry` hands on. `sessionId` is what the unrolling reads: the entry's own field. */
  datatype Parsed = Parsed(sessionId: Option<string>, entry: LogEntry, history: seq<RawTurn>,
                           chosen: SoapSections, rejected: SoapSections)

  /**
   * `parse_and_validate_entry`. A missing session id is refused in strict
   * mode; otherwise the fallback `"unknown"` stays local and the entry's own
   * field is what the unrolling sees.
   */
  function ParseEntry(entry: LogEntry, strict: bool, codecs: Codecs, reading: Reading): (r: Result<Parsed>)
    ensures strict && MissingSession(entry) ==> r.Err?
    ensures r.Ok? ==> r.value.sessionId == entry.sessionId && r.value.entry == entry
    ensures r.Ok? ==> HistoryTurns(entry.context, codecs.decodeHistory, reading).Some?
                      && ValidateTurns(HistoryTurns(entry.context, codecs.decodeHistory, reading).value, reading)
                         == Some(r.value.history)
    ensures r.Ok? ==> exists c :: codecs.validateNote(NoteSource(entry.chosen, codecs.decodeNote)) == Some(c)
                                  && r.value.chosen == NoteDump(c)
    ensures r.Ok? ==> exists c :: codecs.validateNote(NoteSource(entry.rejected, codecs.decodeNote)) == Some(c)
                                  && r.value.rejected == NoteDump(c)
    ensures !(strict && MissingSession(entry))
            && HistoryTurns(entry.context, codecs.decodeHistory, reading).Some?
            && ValidateTurns(HistoryTurns(entry.context, codecs.decodeHistory, reading).value, reading).Some?
            && codecs.validateNote(NoteSource(entry.chosen, codecs.decodeNote)).Some?
            && codecs.validateNote(NoteSource(entry.rejected, codecs.decodeNote)).Some?
            ==> r.Ok?
  {
    if strict && MissingSession(entry) then Err("missing session_id")
    else match HistoryTurns(entry.context, codecs.decodeHistory, reading)
      case None => Err("history is not JSON")
      case Some(raw) =>
        match ValidateTurns(raw, reading)
        case None => Err("history turn is not a DialogueTurn")
        case Some(history) =>
          var chosen := codecs.validateNote(NoteSource(entry.chosen, codecs.decodeNote));
          var rejected := codecs.validateNote(NoteSource(entry.rejected, codecs.decodeNote));
          if chosen.None? || rejected.None? then Err("note is not a SOAPNote")
          else Ok(Parsed(entry.sessionId, entry, history, NoteDump(chosen.value), NoteDump(rejected.value)))
  }

  /** As written, a history that is not JSON fails the whole line despite the fallback. */
  lemma UndecodableHistoryFails(entry: LogEntry, strict: bool, codecs: Codecs)
    requires entry.context.history.Some? && codecs.decodeHistory(entry.context.history.value).None?
    ensures ParseEntry(entry, strict, codecs, AsWritten).Err?
  {
  }

  /** As intended, the same line parses with an empty history when everything else is valid. */
  lemma UndecodableHistoryFallsBack(entry: LogEntry, strict: bool, codecs: Codecs)
    requires entry.context.history.Some? && codecs.decodeHistory(entry.context.history.value).None?
    requires !(strict && MissingSession(entry))
    requires codecs.validateNote(NoteSource(entry.chosen, codecs.decodeNote)).Some?
    requires codecs.validateNote(NoteSource(entry.rejected, codecs.decodeNote)).Some?
    ensures ParseEntry(entry, strict, codecs, Intended).Ok?
    ensures ParseEntry(entry, strict, codecs, Intended).value.history == []
  {
  }

  /** As written, every validated turn has lost its chunk index, so the history's highest chunk is 0. */
  lemma ValidatedChunksLost(entry: LogEntry, strict: bool, codecs: Codecs)
    requires ParseEntry(entry, strict, codecs, AsWritten).Ok?
    ensures MaxChunkIndex(ParseEntry(entry, strict, codecs, AsWritten).value.history) == 0
  {
    var h := ParseEntry(entry, strict, codecs, AsWritten).value.history;
    assert forall i :: 0 <= i < |h| ==> ChunkOf(h[i]) == 0;
  }

  /** As intended, the validated history keeps the chunk indices of the log. */
  lemma ValidatedChunksKept(entry: LogEntry, strict: bool, codecs: Codecs)
    requires ParseEntry(entry, strict, codecs, Intended).Ok?
    ensures var raw := HistoryTurns(entry.context, codecs.decodeHistory, Intended).value;
            MaxChunkIndex(ParseEntry(entry, strict, codecs, Intended).value.history) == MaxChunkIndex(raw)
  {
    var raw := HistoryTurns(entry.context, codecs.decodeHistory, Intended).value;
    var h := ParseEntry(entry, strict, codecs, Intended).value.history;
    assert forall i :: 0 <= i < |h| ==> ChunkOf(h[i]) == ChunkOf(raw[i]);
    if h != [] {
      var i :| 0 <= i < |h| && ChunkOf(h[i]) == MaxChunkIndex(h);
      var j :| 0 <= j < |raw| && ChunkOf(raw[j]) == MaxChunkIndex(raw);
      assert ChunkOf(h[j]) <= MaxChunkIndex(h);
      assert ChunkOf(raw[i]) <= MaxChunkIndex(raw);
    }
  }

  // ---------------------------------------------------------------------
  // iter_parsed_records
  // ---------------------------------------------------------------------

  /** What the generator yields at one index: `None` for a known id, a record, or an exception that ends it. */
  datatype Yield = Skipped | Emitted(record: ParsedEntry) | Raised(error: string)

  /** `f"{session_id}_{idx}"`. */
  function UniqueId(sid: string, idx: nat): string
  {
    sid + "_" + DecimalString(idx)
  }

  /** Within one session, distinct chunk indices give distinct ids. */
  lemma UniqueIdInjective(sid: string, i: nat, j: nat)
    requires UniqueId(sid, i) == UniqueId(sid, j)
    ensures i == j
  {
    var p := sid + "_";
    assert UniqueId(sid, i)[|p|..] == DecimalString(i);
    assert UniqueId(sid, j)[|p|..] == DecimalString(j);
    DecimalValue(i);
    DecimalValue(j);
  }

  function DictItems(items: seq<ItemDict>): seq<RawItem>
  {
    seq(|items|, i requires 0 <= i < |items| => DictItem(items[i]))
  }

  /** A dumped note seen again as a dict of section lists. */
  function AsSoapData(s: SoapSections): SoapData
  {
    SoapDict(map["subjective" := DictItems(s.subjective), "objective" := DictItems(s.objective),
                 "assessment" := DictItems(s.assessment), "plan" := DictItems(s.plan)])
  }

  /** How many indices the generator visits: `range(max_idx + 1)`. */
  function RecordCount(history: seq<RawTurn>): nat
  {
    if MaxChunkIndex(history) >= 0 then MaxChunkIndex(history) + 1 else 0
  }

  /** The keyword arguments the loop body passes to `ParsedEntry` at index `idx`. */
  function RecordArgs(p: Parsed, sid: string, idx: nat, reading: Reading): EntryArgs
  {
    var (turns, transcript) := FormatHistoryUpto(p.history, idx);
    var e := p.entry;
    EntryArgs(UniqueId(sid, idx), sid, idx, Some(OrDefault(e.taskType, "soap")),
              Some(OrDefault(e.context.systemPrompt, "")),
              Some(if reading == AsWritten then TurnsAndTranscript(turns, transcript) else TurnList(turns)),
              Some(SectionsDict(FilterSpec(AsSoapData(p.chosen), idx, Context))),
              Some(SectionsDict(FilterSpec(AsSoapData(p.rejected), idx, Context))),
              Some(OrDefault(e.context.suffixPrompt, "")),
              Some(SectionsDict(FilterSpec(AsSoapData(p.chosen), idx, Target))),
              Some(SectionsDict(FilterSpec(AsSoapData(p.rejected), idx, Target))),
              e.action, e.sessionStart, e.createdAt, Some(PipelineVersion), {})
  }

  /** The yield at one index. */
  function YieldAt(p: Parsed, sid: string, existing: set<string>, idx: nat, reading: Reading): Yield
  {
    if UniqueId(sid, idx) in existing then Skipped
    else match NewParsedEntry(RecordArgs(p, sid, idx, reading))
      case Ok(rec) => Emitted(rec)
      case Err(e) => Raised(e)
  }

  /** Whether the generator has ended with an exception. */
  predicate Stopped(ys: seq<Yield>)
  {
    ys != [] && ys[|ys| - 1].Raised?
  }

  /** The yields for indices below `n`, up to and including the first exception. */
  function YieldsUpTo(at: nat -> Yield, n: nat): seq<Yield>
  {
    if n == 0 then []
    else
      var prev := YieldsUpTo(at, n - 1);
      if Stopped(prev) then prev else prev + [at(n - 1)]
  }

  /** The yield function of one parsed entry. */
  function YieldsOf(p: Parsed, sid: string, existing: set<string>, reading: Reading): nat -> Yield
  {
    (idx: nat) => YieldAt(p, sid, existing, idx, reading)
  }

  /** Everything the generator yields; `entry["session_id"]` on a missing key raises before the first yield. */
  function IterSpec(p: Parsed, existing: set<string>, reading: Reading): seq<Yield>
  {
    if p.sessionId.None? then [Raised("KeyError: session_id")]
    else YieldsUpTo(YieldsOf(p, p.sessionId.value, existing, reading), RecordCount(p.history))
  }

  /** Before any exception, the next index adds its own yield. */
  lemma UpToStep(at: nat -> Yield, n: nat, y: Yield)
    requires at(n) == y && !Stopped(YieldsUpTo(at, n))
    ensures YieldsUpTo(at, n + 1) == YieldsUpTo(at, n) + [y]
  {
  }

  /** Once the generator has raised, later indices add nothing. */
  lemma {:induction false} StoppedStays(at: nat -> Yield, j: nat, k: nat)
    requires j <= k && Stopped(YieldsUpTo(at, j))
    ensures YieldsUpTo(at, k) == YieldsUpTo(at, j)
    decreases k
  {
    if k > j {
      StoppedStays(at, j, k - 1);
    }
  }

  /** `iter_parsed_records`: one yield per chunk index in ascending order, ending early at an exception. */
  method IterParsedRecords(p: Parsed, existing: set<string>, reading: Reading) returns (produced: seq<Yield>)
    ensures produced == IterSpec(p, existing, reading)
  {
    if p.sessionId.None? {
      return [Raised("KeyError: session_id")];
    }
    var sid := p.sessionId.value;
    var count := RecordCount(p.history);
    produced := [];
    ghost var at := YieldsOf(p, sid, existing, reading);
    var idx: nat := 0;
    while idx < count
      invariant idx <= count
      invariant produced == YieldsUpTo(at, idx)
      invariant !Stopped(produced)
    {
      var y := YieldFor(p, sid, existing, idx, reading);
      assert at(idx) == y;
      UpToStep(at, idx, y);
      produced := produced + [y];
      if y.Raised? {
        StoppedStays(at, idx + 1, count);
        return;
      }
      idx := idx + 1;
    }
  }

  /** One pass of the generator's loop: `None` for a known id, otherwise the record or the exception its construction raises. */
  method YieldFor(p: Parsed, sid: string, existing: set<string>, idx: nat, reading: Reading) returns (y: Yield)
    ensures y == YieldAt(p, sid, existing, idx, reading)
  {
    var uid := UniqueId(sid, idx);
    if uid in existing {
      y := Skipped;
    } else {
      var built := BuildRecord(p, sid, idx, reading);
      y := if built.Ok? then Emitted(built.value) else Raised(built.error);
    }
  }

  /** The body of the generator's loop for a new id: gather the chunk's history and notes and construct the record. */
  method BuildRecord(p: Parsed, sid: string, idx: nat, reading: Reading) returns (r: Result<ParsedEntry>)
    ensures r == NewParsedEntry(RecordArgs(p, sid, idx, reading))
  {
    var uid := UniqueId(sid, idx);
    var (turns, transcript) := FormatHistoryUpto(p.history, idx);
    var prevNote := FilterSoapItems(AsSoapData(p.chosen), idx, Context);
    var prevNoteRejected := FilterSoapItems(AsSoapData(p.rejected), idx, Context);
    var completion := FilterSoapItems(AsSoapData(p.chosen), idx, Target);
    var completionRejected := FilterSoapItems(AsSoapData(p.rejected), idx, Target);
    var history := if reading == AsWritten then TurnsAndTranscript(turns, transcript) else TurnList(turns);
    var e := p.entry;
    var args := EntryArgs(uid, sid, idx, Some(OrDefault(e.taskType, "soap")),
                          Some(OrDefault(e.context.systemPrompt, "")), Some(history),
                          Some(SectionsDict(prevNote)), Some(SectionsDict(prevNoteRejected)),
                          Some(OrDefault(e.context.suffixPrompt, "")),
                          Some(SectionsDict(completion)), Some(SectionsDict(completionRejected)),
                          e.action, e.sessionStart, e.createdAt, Some(PipelineVersion), {});
    assert args == RecordArgs(p, sid, idx, reading);
    r := NewParsedEntry(args);
  }

  /** As written, every index whose id is new raises: the pair is not a list of turns. */
  lemma AsWrittenNeverEmits(p: Parsed, existing: set<string>)
    ensures forall y :: y in IterSpec(p, existing, AsWritten) ==> !y.Emitted?
  {
    if p.sessionId.Some? {
      var sid := p.sessionId.value;
      var at := YieldsOf(p, sid, existing, AsWritten);
      forall i: nat
        ensures !at(i).Emitted?
      {
        assert EntryError(RecordArgs(p, sid, i, AsWritten)).Some?;
      }
      NoEmits(at, RecordCount(p.history));
    }
  }

  /** When no index emits a record, nothing is emitted. */
  lemma {:induction false} NoEmits(at: nat -> Yield, n: nat)
    requires forall i: nat :: !at(i).Emitted?
    ensures forall y :: y in YieldsUpTo(at, n) ==> !y.Emitted?
  {
    if n > 0 {
      NoEmits(at, n - 1);
    }
  }

  /** As intended, record construction never fails: the arguments are always valid. */
  lemma IntendedArgsValid(p: Parsed, sid: string, idx: nat)
    ensures NewParsedEntry(RecordArgs(p, sid, idx, Intended)).Ok?
  {
    var args := RecordArgs(p, sid, idx, Intended);
    assert args.history.Some? && args.history.value.TurnList?;
  }

  /**
   * As intended, the generator yields exactly one item per chunk index
   * `0..max_idx`, in order: `None` for an id already known, otherwise the
   * record with id `{session_id}_{idx}`.
   */
  lemma IntendedYields(p: Parsed, sid: string, existing: set<string>, n: nat)
    ensures var ys := YieldsUpTo(YieldsOf(p, sid, existing, Intended), n);
            |ys| == n
            && forall i :: 0 <= i < n ==>
                 (ys[i].Skipped? <==> UniqueId(sid, i) in existing)
                 && (!ys[i].Skipped? ==> ys[i] == Emitted(NewParsedEntry(RecordArgs(p, sid, i, Intended)).value))
  {
    var at := YieldsOf(p, sid, existing, Intended);
    forall i: nat
      ensures !at(i).Raised?
      ensures at(i).Skipped? <==> UniqueId(sid, i) in existing
      ensures !at(i).Skipped? ==> at(i) == Emitted(NewParsedEntry(RecordArgs(p, sid, i, Intended)).value)
    {
      IntendedArgsValid(p, sid, i);
    }
    NeverStopped(at, n);
  }

  /** When no index raises, the generator yields exactly one item per index. */
  lemma {:induction false} NeverStopped(at: nat -> Yield, n: nat)
    requires forall i: nat :: !at(i).Raised?
    ensures |YieldsUpTo(at, n)| == n
    ensures forall i :: 0 <= i < n ==> YieldsUpTo(at, n)[i] == at(i)
  {
    if n > 0 {
      NeverStopped(at, n - 1);
    }
  }

  /**
   * The record at index `idx`: its context is the chosen note's items from
   * earlier chunks, its completion the items of chunk `idx` (likewise for
   * the rejected note), and its history the turns up to `idx`.
   */
  lemma RecordContents(p: Parsed, sid: string, idx: nat)
    ensures var rec := NewParsedEntry(RecordArgs(p, sid, idx, Intended)).value;
            rec.id == UniqueId(sid, idx) && rec.sessionId == sid && rec.chunkIndex == idx
            && rec.previousNote == SectionsDict(FilterSpec(AsSoapData(p.chosen), idx, Context))
            && rec.completion == SectionsDict(FilterSpec(AsSoapData(p.chosen), idx, Target))
            && rec.previousNoteRejected == SectionsDict(FilterSpec(AsSoapData(p.rejected), idx, Context))
            && rec.completionRejected == SectionsDict(FilterSpec(AsSoapData(p.rejected), idx, Target))
            && rec.history == FormatHistoryUpto(p.history, idx).0
            && rec.version == Some(PipelineVersion)
  {
    IntendedArgsValid(p, sid, idx);
  }

  /** The last record's history holds every turn of the log. */
  lemma LastRecordSeesAll(p: Parsed, sid: string)
    requires RecordCount(p.history) > 0
    ensures var rec := NewParsedEntry(RecordArgs(p, sid, RecordCount(p.history) - 1, Intended)).value;
            |rec.history| == |p.history|
  {
    var idx := RecordCount(p.history) - 1;
    var rec := NewParsedEntry(RecordArgs(p, sid, idx, Intended)).value;
    assert rec.history == FormatHistoryUpto(p.history, idx).0 by {
      RecordContents(p, sid, idx);
    }
    assert Upto(p.history, idx) == p.history by {
      UptoMaxIsAll(p.history, idx);
    }
  }
}
