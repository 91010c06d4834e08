/**
 * `Runner`: the per-line loop that turns a raw log file into parsed
 * records. Each line is parsed, dropped by the length filter or unrolled;
 * the loop counts successes, skips, failures and filtered lines, and adds
 * the id of every written record to the set of known ids, so that no id is
 * written twice.
 */
module Runner {
  import opened Common
  import opened PipelineSchema
  import opened Transform
  import opened Parse

  /** The length filter's settings: `min_length`, `min_ratio` and `max_ratio`. */
  datatype Thresholds = Thresholds(minLength: int, minRatio: real, maxRatio: real)

  datatype DropReason = TranscriptTooShort | SoapTooSparse | SoapTooSimilar

  /** `sum(len(turn.get('content', '')) for turn in history_list)`. */
  function HistoryLength(history: seq<RawTurn>): nat
  {
    if history == [] then 0
    else HistoryLength(history[..|history| - 1]) + |ContentOf(history[|history| - 1])|
  }

  function TextLength(items: seq<ItemDict>): nat
  {
    if items == [] then 0 else TextLength(items[..|items| - 1]) + |items[|items| - 1].text|
  }

  /** The total text length of a note's items. */
  function NoteLength(note: SoapSections): nat
  {
    TextLength(note.subjective) + TextLength(note.objective) + TextLength(note.assessment) + TextLength(note.plan)
  }

  /**
   * The first drop reason that applies, checked in order: too short, then
   * too sparse, then too similar.
   */
  function DropReasonOf(historyLength: nat, noteLength: nat, th: Thresholds): (r: Option<DropReason>)
    requires historyLength > 0
    ensures var ratio := noteLength as real / historyLength as real;
            (r.None? <==> historyLength > th.minLength && th.minRatio < ratio < th.maxRatio)
            && (r == Some(TranscriptTooShort) <==> historyLength <= th.minLength)
            && (r == Some(SoapTooSparse) <==> historyLength > th.minLength && ratio <= th.minRatio)
            && (r == Some(SoapTooSimilar) <==> historyLength > th.minLength && th.minRatio < ratio && ratio >= th.maxRatio)
  {
    var ratio := noteLength as real / historyLength as real;
    if historyLength <= th.minLength then Some(TranscriptTooShort)
    else if ratio <= th.minRatio then Some(SoapTooSparse)
    else if ratio >= th.maxRatio then Some(SoapTooSimilar)
    else None
  }

  /** The output file's new lines, the known ids and the four counters. */
  datatype RunState = RunState(written: seq<ParsedEntry>, ids: set<string>,
                               success: nat, skip: nat, fail: nat, filtered: nat)

  /** The collaborators of one run: `json.loads` of a line and the decoders of its fields. */
  datatype Reader = Reader(decodeLine: string -> Option<LogEntry>, codecs: Codecs)

  /** Handing the generator's yields to the output: a record is written and its id becomes known. */
  function Consume(st: RunState, ys: seq<Yield>): RunState
  {
    if ys == [] then st
    else
      var s := Consume(st, ys[..|ys| - 1]);
      match ys[|ys| - 1]
      case Skipped => s.(skip := s.skip + 1)
      case Emitted(rec) => s.(written := s.written + [rec], ids := s.ids + {rec.id}, success := s.success + 1)
      case Raised(_) => s.(fail := s.fail + 1)
  }

  /** One line of the input: a failure, a filtered entry, or the entry's records. */
  function LineStep(st: RunState, line: string, strict: bool, reader: Reader, th: Thresholds): RunState
  {
    match reader.decodeLine(line)
    case None => st.(fail := st.fail + 1)
    case Some(entry) =>
      match ParseEntry(entry, strict, reader.codecs, Intended)
      case Err(_) => st.(fail := st.fail + 1)
      case Ok(p) =>
        var h := HistoryLength(p.history);
        if h == 0 || DropReasonOf(h, NoteLength(p.chosen), th).Some? then st.(filtered := st.filtered + 1)
        else Consume(st, IterSpec(p, st.ids, Intended))
  }

  /** The run over a file's lines. */
  function Run(st: RunState, lines: seq<string>, strict: bool, reader: Reader, th: Thresholds): RunState
  {
    if lines == [] then st
    else LineStep(Run(st, lines[..|lines| - 1], strict, reader, th), lines[|lines| - 1], strict, reader, th)
  }

  /** `process_file`: the counters start at zero and the known ids are those already in the output. */
  method ProcessFile(lines: seq<string>, existing: set<string>, strict: bool, reader: Reader, th: Thresholds)
    returns (written: seq<ParsedEntry>, ids: set<string>, success: nat, skip: nat, fail: nat, filtered: nat)
    ensures RunState(written, ids, success, skip, fail, filtered)
            == Run(RunState([], existing, 0, 0, 0, 0), lines, strict, reader, th)
  {
    written, ids := [], existing;
    success, skip, fail, filtered := 0, 0, 0, 0;
    var i := 0;
    while i < |lines|
      invariant 0 <= i <= |lines|
      invariant RunState(written, ids, success, skip, fail, filtered)
                == Run(RunState([], existing, 0, 0, 0, 0), lines[..i], strict, reader, th)
    {
      assert lines[..i + 1][..i] == lines[..i];
      var line := lines[i];
      var decoded := reader.decodeLine(line);
      if decoded.None? {
        fail := fail + 1;
      } else {
        var parsed := ParseEntry(decoded.value, strict, reader.codecs, Intended);
        if parsed.Err? {
          fail := fail + 1;
        } else {
          var p := parsed.value;
          var h := HistoryLength(p.history);
          if h == 0 {
            filtered := filtered + 1;
          } else if DropReasonOf(h, NoteLength(p.chosen), th).Some? {
            filtered := filtered + 1;
          } else {
            var ys := IterParsedRecords(p, ids, Intended);
            written, ids, success, skip, fail := WriteRecords(written, ids, success, skip, fail, filtered, ys);
          }
        }
      }
      i := i + 1;
    }
    assert lines[..i] == lines;
  }

  /** The inner loop over one entry's yields: write each record and remember its id. */
  method WriteRecords(written: seq<ParsedEntry>, ids: set<string>, success: nat, skip: nat, fail: nat,
                      filtered: nat, ys: seq<Yield>)
    returns (written': seq<ParsedEntry>, ids': set<string>, success': nat, skip': nat, fail': nat)
    ensures RunState(written', ids', success', skip', fail', filtered)
            == Consume(RunState(written, ids, success, skip, fail, filtered), ys)
  {
    written', ids', success', skip', fail' := written, ids, success, skip, fail;
    var j := 0;
    while j < |ys|
      invariant 0 <= j <= |ys|
      invariant RunState(written', ids', success', skip', fail', filtered)
                == Consume(RunState(written, ids, success, skip, fail, filtered), ys[..j])
    {
      assert ys[..j + 1][..j] == ys[..j];
      match ys[j] {
        case Skipped =>
          skip' := skip' + 1;
        case Emitted(rec) =>
          written' := written' + [rec];
          ids' := ids' + {rec.id};
          success' := success' + 1;
        case Raised(_) =>
          fail' := fail' + 1;
      }
      j := j + 1;
    }
    assert ys[..j] == ys;
  }

  /**
   * The generator checks the known ids as the run adds to them. The ids it
   * adds belong to other indices of the same session, so the id test at each
   * index comes out as it would against the ids known when the entry began.
   */
  lemma LiveSetSameYield(p: Parsed, sid: string, known: set<string>, added: set<string>, idx: nat, reading: Reading)
    requires forall x :: x in added ==> exists j: nat :: j != idx && x == UniqueId(sid, j)
    ensures YieldAt(p, sid, known + added, idx, reading) == YieldAt(p, sid, known, idx, reading)
  {
    if UniqueId(sid, idx) in added {
      var j: nat :| j != idx && UniqueId(sid, idx) == UniqueId(sid, j);
      UniqueIdInjective(sid, idx, j);
    }
  }

  /** The ids of written records. */
  function WrittenIds(written: seq<ParsedEntry>): set<string>
  {
    set i | 0 <= i < |written| :: written[i].id
  }

  /** The run's bookkeeping: ids are the initial ones plus those written, written ids are new and distinct. */
  ghost predicate Bookkept(st: RunState, existing: set<string>)
  {
    st.ids == existing + WrittenIds(st.written)
    && st.success == |st.written|
    && (forall i :: 0 <= i < |st.written| ==> st.written[i].id !in existing)
    && (forall i, j :: 0 <= i < j < |st.written| ==> st.written[i].id != st.written[j].id)
  }

  /** The records an entry's generator emits have new ids, distinct from each other. */
  lemma {:induction false} EmittedFresh(p: Parsed, known: set<string>)
    ensures var ys := IterSpec(p, known, Intended);
            (forall k :: 0 <= k < |ys| && ys[k].Emitted? ==> ys[k].record.id !in known)
            && (forall k, l :: 0 <= k < l < |ys| && ys[k].Emitted? && ys[l].Emitted? ==>
                                ys[k].record.id != ys[l].record.id)
  {
    if p.sessionId.Some? {
      var sid := p.sessionId.value;
      var ys := IterSpec(p, known, Intended);
      IntendedYields(p, sid, known, RecordCount(p.history));
      forall k | 0 <= k < |ys| && ys[k].Emitted?
        ensures ys[k].record.id == UniqueId(sid, k)
      {
        RecordContents(p, sid, k);
      }
      forall k, l | 0 <= k < l < |ys| && ys[k].Emitted? && ys[l].Emitted?
        ensures ys[k].record.id != ys[l].record.id
      {
        if UniqueId(sid, k) == UniqueId(sid, l) {
          UniqueIdInjective(sid, k, l);
        }
      }
    }
  }

  /** Consuming a batch whose emitted ids are new and distinct keeps the bookkeeping. */
  lemma {:induction false} ConsumeBookkept(st: RunState, ys: seq<Yield>, existing: set<string>)
    requires Bookkept(st, existing)
    requires forall k :: 0 <= k < |ys| && ys[k].Emitted? ==> ys[k].record.id !in st.ids
    requires forall k, l :: 0 <= k < l < |ys| && ys[k].Emitted? && ys[l].Emitted? ==> ys[k].record.id != ys[l].record.id
    ensures Bookkept(Consume(st, ys), existing)
    ensures forall x :: x in Consume(st, ys).ids ==>
              x in st.ids || exists k :: 0 <= k < |ys| && ys[k].Emitted? && x == ys[k].record.id
  {
    if ys != [] {
      var init := ys[..|ys| - 1];
      ConsumeBookkept(st, init, existing);
      var s := Consume(st, init);
      var last := ys[|ys| - 1];
      if last.Emitted? {
        var rec := last.record;
        assert forall k :: 0 <= k < |init| ==> init[k] == ys[k];
        assert rec.id !in s.ids;
        var w := s.written + [rec];
        assert WrittenIds(w) == WrittenIds(s.written) + {rec.id} by {
          assert forall i :: 0 <= i < |s.written| ==> w[i] == s.written[i];
          assert w[|s.written|] == rec;
        }
        assert forall i :: 0 <= i < |s.written| ==> s.written[i].id in s.ids;
      }
    }
  }

  /**
   * Over a whole run no record is written twice: every written id was new
   * when the run began, no two written records share an id, the known ids
   * are the initial ones plus those written, and `success` counts the
   * written records.
   */
  lemma {:induction false} RunBookkept(lines: seq<string>, existing: set<string>, strict: bool, reader: Reader, th: Thresholds)
    ensures Bookkept(Run(RunState([], existing, 0, 0, 0, 0), lines, strict, reader, th), existing)
  {
    if lines != [] {
      var init := lines[..|lines| - 1];
      RunBookkept(init, existing, strict, reader, th);
      var st := Run(RunState([], existing, 0, 0, 0, 0), init, strict, reader, th);
      var line := lines[|lines| - 1];
      match reader.decodeLine(line)
      case None =>
      case Some(entry) =>
        match ParseEntry(entry, strict, reader.codecs, Intended)
        case Err(_) =>
        case Ok(p) =>
          EmittedFresh(p, st.ids);
          ConsumeBookkept(st, IterSpec(p, st.ids, Intended), existing);
    }
  }
}
