/**
 * The chunk protocol as the worker is evidently meant to behave, and the
 * properties that make it a sequencer.
 *
 * Compared with `Ingest.Process` it differs in exactly the points listed
 * under Findings in the README: the note is read from the store rather than
 * taken from the `current_note` argument; a silent chunk settles its turn like any
 * other; the writes of a turn, the increment and the hand-off to the
 * buffered successor happen together or not at all, so a retry starts from
 * a clean state; a terminal failure settles the turn only when it is the
 * job's turn, and then also hands off; and the re-submitted job carries all
 * it needs.
 */
module IngestProtocol {
  import opened Common
  import opened Document
  import opened Schemas
  import opened Store
  import opened Ingest
  import Metrics
  import LlmHandler

  /** One delivery of a task message (the four payload fields), with its retry count and its environment. */
  datatype Delivery = Delivery(payload: Payload, retries: nat, env: Env)

  /** The session after one delivery, the outcome, and the payloads handed back to the queue. */
  datatype StepResult = StepResult(state: SessionState, outcome: Outcome, sent: seq<Payload>)

  /** The note the session holds; a session without one starts from the empty note. */
  function StoredNote(st: SessionState): Note
  {
    if st.soap.Some? then st.soap.value else Empty()
  }

  /**
   * What the turn of a chunk with speech computes before it writes anything:
   * the relabelled UI segments, the masked turns, the delta note, the
   * quality-check warnings, the safety alerts, and the metrics hash with the
   * generation time and the latency added when they are recorded.
   */
  datatype TurnOutput = TurnOutput(segments: seq<SegmentInfo>, safe: seq<DialogueTurn>, delta: Note,
                                   warnings: seq<string>, alerts: seq<string>, metrics: map<string, real>)

  /**
   * The output of the turn of delivery `d` on `st`: the delta is extracted
   * from the stored history with the chunk's masked turns appended, against
   * the stored note.
   */
  function TurnOf(st: SessionState, d: Delivery): TurnOutput
  {
    var p, env := d.payload, d.env;
    var tr := env.transcribe(p.filePath, p.chunkIndex);
    var tagged := TagTurns(tr.turns, env);
    var safe := env.mask(tagged);
    var delta := Delta(st.history + safe, StoredNote(st), p.chunkIndex, env);
    TurnOutput(Relabel(tr.segments, tagged), safe, delta, env.check(safe, delta), env.detect(PlanText(delta)),
               TurnMetrics(st.metrics.fields, p.isLastChunk, env))
  }

  /** With a stamping scribe, every delta a turn extracts carries the delivery's own chunk index. */
  lemma TurnStamped(st: SessionState, d: Delivery)
    requires Stamping(d.env)
    ensures StampedWith(TurnOf(st, d).delta, d.payload.chunkIndex)
  {
  }

  /** The payload filed under `k`, as a list of at most one. */
  function Handed(buffer: map<int, Payload>, k: int): seq<Payload>
  {
    if k in buffer then [buffer[k]] else []
  }

  /** Settle the expected index and hand the payload buffered for the new one, if any, back to the queue. */
  function AdvanceAndDrain(s: SessionState, outcome: Outcome): StepResult
  {
    var next := s.nextChunk + 1;
    StepResult(s.(nextChunk := next, buffer := Hash(s.buffer.fields - {next})), outcome, Handed(s.buffer.fields, next))
  }

  /** The delivery meets a transient error with retries left: it is retried and changes nothing. */
  predicate Retried(d: Delivery)
  {
    d.env.fault.Some? && d.retries < MaxRetries && d.env.fault.value.retryable
  }

  /** The delivery settles the turn: it is the job whose turn it is, and it is not retried. */
  predicate Settling(st: SessionState, d: Delivery)
  {
    !Retried(d) && d.payload.chunkIndex == st.nextChunk
  }

  /** The delivery runs the whole turn: no fault, its turn, and speech in the chunk. */
  predicate Speaks(st: SessionState, d: Delivery)
  {
    d.env.fault.None? && d.payload.chunkIndex == st.nextChunk
    && d.env.transcribe(d.payload.filePath, d.payload.chunkIndex).turns != []
  }

  /** The delivery comes early and meets no fault: its payload is parked. */
  predicate Parks(st: SessionState, d: Delivery)
  {
    d.env.fault.None? && d.payload.chunkIndex > st.nextChunk
  }

  /** What the delivery reports. */
  function OutcomeOf(st: SessionState, d: Delivery): Outcome
  {
    var k := d.payload.chunkIndex;
    if Retried(d) then RetryLater
    else if d.env.fault.Some? then Failed(k)
    else if k > st.nextChunk then Buffered
    else if k < st.nextChunk then Skipped
    else if Speaks(st, d) then Succeeded(k)
    else NoSpeech(StoredNote(st))
  }

  /**
   * The writes of the delivery other than the expected index and the
   * hand-off: a turn with speech appends to the transcript and the history,
   * merges its delta into the stored note, records its notifications and its
   * latency; an early payload is parked; nothing else is written.
   */
  function Written(st: SessionState, d: Delivery, out: TurnOutput): SessionState
  {
    var on, k, now := Speaks(st, d), d.payload.chunkIndex, d.env.now;
    st.(uiTranscript := if on then st.uiTranscript + out.segments else st.uiTranscript,
        history := if on then st.history + out.safe else st.history,
        soap := if on then Some(Merge(StoredNote(st), out.delta)) else st.soap,
        warnings := if on then Hash(Notified(st.warnings.fields, k, now, out.warnings)) else st.warnings,
        safety := if on then Hash(Notified(st.safety.fields, k, now, out.alerts)) else st.safety,
        metrics := if on then Hash(out.metrics) else st.metrics,
        buffer := if Parks(st, d) then Hash(st.buffer.fields[k := d.payload]) else st.buffer)
  }

  /** One delivery under the intended protocol. */
  function Step(st: SessionState, d: Delivery): StepResult
  {
    StepWith(st, d, TurnOf(st, d))
  }

  /**
   * One delivery, with what its turn computes given as `out` (used only when
   * the turn has speech): the writes, then, when the turn settles, the
   * increment and the hand-off, all as one commit.
   */
  function StepWith(st: SessionState, d: Delivery, out: TurnOutput): StepResult
  {
    var s := Written(st, d, out);
    if Settling(st, d) then AdvanceAndDrain(s, OutcomeOf(st, d))
    else StepResult(s, OutcomeOf(st, d), [])
  }

  /** The writes leave the expected index alone, and change the buffer only by parking an early payload. */
  lemma WrittenFrame(st: SessionState, d: Delivery, out: TurnOutput)
    ensures Written(st, d, out).nextChunk == st.nextChunk
    ensures Written(st, d, out).buffer.fields == if Parks(st, d) then st.buffer.fields[d.payload.chunkIndex := d.payload] else st.buffer.fields
  {
  }

  /** The outcomes that settle a turn. */
  predicate Settles(o: Outcome)
  {
    o.Succeeded? || o.NoSpeech? || o.Failed?
  }

  /**
   * The expected index moves by one exactly when the delivery was the job
   * whose turn it is and that job settled; otherwise it stays.
   */
  lemma StepAdvance(st: SessionState, d: Delivery, out: TurnOutput)
    ensures StepWith(st, d, out).state.nextChunk ==
              if d.payload.chunkIndex == st.nextChunk && Settles(StepWith(st, d, out).outcome) then st.nextChunk + 1
              else st.nextChunk
  {
  }

  /** Each buffered payload is filed under its own index, and that index is still to come. */
  predicate BufferFiled(st: SessionState)
  {
    forall j :: j in st.buffer.fields ==> j > st.nextChunk && st.buffer.fields[j].chunkIndex == j
  }

  /** Every note item comes from a chunk that has already been settled, in chunk order. */
  predicate NoteSettled(st: SessionState)
  {
    st.soap.Some? ==> OrderedBelow(st.soap.value, st.nextChunk)
  }

  /** The state every session keeps. */
  predicate Inv(st: SessionState)
  {
    BufferFiled(st) && NoteSettled(st)
  }

  /** A session nobody has written to satisfies the invariant. */
  lemma FreshInv()
    ensures Inv(Fresh())
  {
  }

  /** Raising the bound keeps a note ordered. */
  lemma OrderedBelowRaise(n: Note, b: int)
    requires OrderedBelow(n, b)
    ensures OrderedBelow(n, b + 1)
  {
  }

  /**
   * The note a turn with speech stores is the stored note merged with the
   * delta, ordered below the next index; any other delivery leaves the note
   * as it was.
   */
  lemma WrittenOrdered(st: SessionState, d: Delivery, out: TurnOutput)
    requires NoteSettled(st) && StampedWith(out.delta, d.payload.chunkIndex)
    ensures Written(st, d, out).soap == if Speaks(st, d) then Some(Merge(StoredNote(st), out.delta)) else st.soap
    ensures Written(st, d, out).soap.Some? ==>
              OrderedBelow(Written(st, d, out).soap.value, if Speaks(st, d) then st.nextChunk + 1 else st.nextChunk)
  {
    if Speaks(st, d) {
      assert OrderedBelow(StoredNote(st), st.nextChunk);
      MergeKeepsChunkOrder(StoredNote(st), out.delta, st.nextChunk);
    }
  }

  /** Every delivery keeps the buffer filed: nothing is left in it at or below the expected index. */
  lemma StepKeepsBuffer(st: SessionState, d: Delivery, out: TurnOutput)
    requires BufferFiled(st)
    ensures BufferFiled(StepWith(st, d, out).state)
  {
    WrittenFrame(st, d, out);
  }

  /** Every delivery keeps the note settled when the delta carries the delivery's own index. */
  lemma StepKeepsNote(st: SessionState, d: Delivery, out: TurnOutput)
    requires NoteSettled(st) && StampedWith(out.delta, d.payload.chunkIndex)
    ensures NoteSettled(StepWith(st, d, out).state)
  {
    WrittenFrame(st, d, out);
    WrittenOrdered(st, d, out);
    if Settling(st, d) && !Speaks(st, d) && st.soap.Some? {
      OrderedBelowRaise(st.soap.value, st.nextChunk);
    }
  }

  /** Every delivery keeps the invariant when the delta carries the delivery's own index. */
  lemma StepKeepsInv(st: SessionState, d: Delivery, out: TurnOutput)
    requires Inv(st) && StampedWith(out.delta, d.payload.chunkIndex)
    ensures Inv(StepWith(st, d, out).state)
  {
    StepKeepsBuffer(st, d, out);
    StepKeepsNote(st, d, out);
  }

  /**
   * A delivery hands back at most one payload: the one filed under the new
   * expected index, which then leaves the buffer.
   */
  lemma StepSends(st: SessionState, d: Delivery, out: TurnOutput)
    requires Inv(st)
    ensures var r := StepWith(st, d, out);
      r.sent == [] || (r.sent == [st.buffer.fields[r.state.nextChunk]] && r.state.nextChunk !in r.state.buffer.fields
                       && r.sent[0].chunkIndex == r.state.nextChunk && r.state.nextChunk == st.nextChunk + 1)
  {
  }

  /** History changes only by appending the masked turns of a successful turn. */
  lemma StepHistory(st: SessionState, d: Delivery, out: TurnOutput)
    ensures var r := StepWith(st, d, out);
      r.state.history == if r.outcome.Succeeded? then st.history + out.safe else st.history
  {
  }

  /** The stored note only grows: an existing note is kept as a prefix, section by section. */
  lemma StepNoteGrows(st: SessionState, d: Delivery, out: TurnOutput)
    ensures st.soap.Some? ==> StepWith(st, d, out).state.soap.Some? && Extends(StepWith(st, d, out).state.soap.value, st.soap.value)
  {
    if st.soap.Some? && d.env.fault.None? && d.payload.chunkIndex == st.nextChunk {
      MergeExtends(st.soap.value, out.delta);
    }
  }

  /** A turn computation whose delta carries the delivery's own chunk index whenever the scribe stamps. */
  ghost predicate Stamps(turn: (SessionState, Delivery) -> TurnOutput)
  {
    forall st: SessionState, d: Delivery :: Stamping(d.env) ==> StampedWith(turn(st, d).delta, d.payload.chunkIndex)
  }

  /** Every delivery meets a stamping scribe. */
  ghost predicate AllStamping(ds: seq<Delivery>)
  {
    forall i :: 0 <= i < |ds| ==> Stamping(ds[i].env)
  }

  /** The worker's own turn computation is one. */
  lemma TurnOfStamps()
    ensures Stamps(TurnOf)
  {
    forall st: SessionState, d: Delivery | Stamping(d.env) ensures StampedWith(TurnOf(st, d).delta, d.payload.chunkIndex) {
      TurnStamped(st, d);
    }
  }

  /** The run of a sequence of deliveries: final state, the indices settled in order, and all payloads handed back. */
  datatype Trace = Trace(state: SessionState, settled: seq<int>, sent: seq<Payload>)

  /**
   * The deliveries `ds` in order, each turn computed by `turn`; with
   * `turn := TurnOf` each step is `Step`.
   */
  function Deliver(st: SessionState, ds: seq<Delivery>, turn: (SessionState, Delivery) -> TurnOutput): Trace
    decreases |ds|
  {
    if ds == [] then Trace(st, [], [])
    else
      var r := StepWith(st, ds[0], turn(st, ds[0]));
      var rest := Deliver(r.state, ds[1..], turn);
      Trace(rest.state, (if r.state.nextChunk != st.nextChunk then [st.nextChunk] else []) + rest.settled, r.sent + rest.sent)
  }

  /**
   * The indices settled over any run are exactly the consecutive indices from
   * the starting expected index up to the final one: each is settled once.
   */
  lemma {:induction false} SettledConsecutive(st: SessionState, ds: seq<Delivery>, turn: (SessionState, Delivery) -> TurnOutput)
    ensures var t := Deliver(st, ds, turn);
      st.nextChunk <= t.state.nextChunk && |t.settled| == t.state.nextChunk - st.nextChunk
      && forall i :: 0 <= i < |t.settled| ==> t.settled[i] == st.nextChunk + i
    decreases |ds|
  {
    if ds != [] {
      var r := StepWith(st, ds[0], turn(st, ds[0]));
      StepAdvance(st, ds[0], turn(st, ds[0]));
      SettledConsecutive(r.state, ds[1..], turn);
    }
  }

  /** At most one commit per index. */
  lemma SettledOnce(st: SessionState, ds: seq<Delivery>, turn: (SessionState, Delivery) -> TurnOutput)
    ensures var t := Deliver(st, ds, turn);
      forall i, j :: 0 <= i < j < |t.settled| ==> t.settled[i] < t.settled[j]
  {
    SettledConsecutive(st, ds, turn);
  }

  /**
   * The invariant holds after any run, and the payloads handed back carry
   * strictly increasing indices above the starting index, none above the
   * final one: a buffered index is replayed at most once, and none is left
   * behind at or below the expected index.
   */
  lemma {:induction false} DeliverKeepsInv(st: SessionState, ds: seq<Delivery>, turn: (SessionState, Delivery) -> TurnOutput)
    requires Inv(st) && Stamps(turn) && AllStamping(ds)
    ensures var t := Deliver(st, ds, turn);
      Inv(t.state)
      && (forall i :: 0 <= i < |t.sent| ==> st.nextChunk < t.sent[i].chunkIndex <= t.state.nextChunk)
      && (forall i, j :: 0 <= i < j < |t.sent| ==> t.sent[i].chunkIndex < t.sent[j].chunkIndex)
    decreases |ds|
  {
    if ds != [] {
      var out := turn(st, ds[0]);
      var r := StepWith(st, ds[0], out);
      StepKeepsInv(st, ds[0], out);
      StepSends(st, ds[0], out);
      assert AllStamping(ds[1..]) by {
        forall i | 0 <= i < |ds| - 1 ensures Stamping(ds[1..][i].env) {
          assert ds[1..][i] == ds[i + 1];
        }
      }
      DeliverKeepsInv(r.state, ds[1..], turn);
      SettledConsecutive(r.state, ds[1..], turn);
      var rest := Deliver(r.state, ds[1..], turn);
      assert Deliver(st, ds, turn).sent == r.sent + rest.sent;
    }
  }

  /** Over any run the history only grows by appending, and the note only by extending. */
  lemma {:induction false} DeliverGrows(st: SessionState, ds: seq<Delivery>, turn: (SessionState, Delivery) -> TurnOutput)
    ensures st.history <= Deliver(st, ds, turn).state.history
    ensures st.soap.Some? ==> Deliver(st, ds, turn).state.soap.Some?
                              && Extends(Deliver(st, ds, turn).state.soap.value, st.soap.value)
    decreases |ds|
  {
    if ds != [] {
      var out := turn(st, ds[0]);
      var r := StepWith(st, ds[0], out);
      StepHistory(st, ds[0], out);
      StepNoteGrows(st, ds[0], out);
      DeliverGrows(r.state, ds[1..], turn);
      if st.soap.Some? {
        var a, b, c := st.soap.value, r.state.soap.value, Deliver(st, ds, turn).state.soap.value;
        forall sec: Section ensures a.Get(sec) <= c.Get(sec) {
          assert a.Get(sec) <= b.Get(sec) <= c.Get(sec);
        }
      }
    }
  }

  /**
   * A terminal failure of the job whose turn it is settles the turn and hands
   * the buffered successor back, leaving nothing buffered at the new index.
   */
  lemma FailureHandsOff(st: SessionState, d: Delivery, out: TurnOutput)
    requires Settling(st, d) && d.env.fault.Some?
    ensures var r := StepWith(st, d, out);
      r.outcome == Failed(st.nextChunk) && r.state.nextChunk == st.nextChunk + 1
      && r.sent == Handed(st.buffer.fields, st.nextChunk + 1) && st.nextChunk + 1 !in r.state.buffer.fields
  {
  }

  /** A silent chunk settles its turn and hands off, writing nothing else. */
  lemma SilenceAdvances(st: SessionState, d: Delivery, out: TurnOutput)
    requires d.env.fault.None? && d.payload.chunkIndex == st.nextChunk
    requires d.env.transcribe(d.payload.filePath, d.payload.chunkIndex).turns == []
    ensures StepWith(st, d, out).outcome == NoSpeech(StoredNote(st))
    ensures StepWith(st, d, out).state.nextChunk == st.nextChunk + 1
    ensures StepWith(st, d, out).state.history == st.history && StepWith(st, d, out).state.soap == st.soap
  {
  }

  /** The note a turn stores is the stored note extended by the delta, whatever the `current_note` argument said. */
  lemma StepMergesStoredNote(st: SessionState, d: Delivery)
    requires d.env.fault.None? && d.payload.chunkIndex == st.nextChunk
    requires d.env.transcribe(d.payload.filePath, d.payload.chunkIndex).turns != []
    ensures Step(st, d).state.soap == Some(Merge(StoredNote(st), TurnOf(st, d).delta))
  {
  }

  /** A retry of a transient failure starts from exactly the state before the failed attempt. */
  lemma RetryIsClean(st: SessionState, p: Payload, n: nat, env: Env, later: Delivery)
    requires n < MaxRetries && env.fault.Some? && env.fault.value.retryable
    ensures Step(st, Delivery(p, n, env)) == StepResult(st, RetryLater, [])
    ensures Step(Step(st, Delivery(p, n, env)).state, later) == Step(st, later)
  {
  }

  /**
   * The payload handed back is exactly on turn in the state it leaves, so its
   * delivery, when it meets no fault and holds speech, succeeds.
   */
  lemma HandOffIsOnTurn(st: SessionState, d: Delivery, env: Env)
    requires Inv(st)
    requires Step(st, d).sent != []
    requires env.fault.None?
    requires var q := Step(st, d).sent[0]; env.transcribe(q.filePath, q.chunkIndex).turns != []
    ensures var q := Step(st, d).sent[0];
      Step(Step(st, d).state, Delivery(q, 0, env)).outcome == Succeeded(q.chunkIndex)
  {
    StepSends(st, d, TurnOf(st, d));
  }
}
