/**
 * What the worker as written does, stated over `Ingest.Process`: the
 * branches of one delivery, the error policy, and the runs that show where
 * it departs from the protocol the worker is evidently meant to follow
 * (its docstring, backend/tasks/ingest.py lines 37-43; `IngestProtocol`).
 */
module IngestFacts {
  import opened Common
  import opened Document
  import opened Schemas
  import opened Store
  import opened Ingest
  import Metrics
  import IngestProtocol

  /** What the recogniser returns for the job's chunk. */
  function Heard(job: Job, env: Env): Transcription
  {
    env.transcribe(job.filePath, job.chunkIndex)
  }

  /** The chunk's turns, role-tagged and masked: what the run appends to the history. */
  function Safe(job: Job, env: Env): seq<DialogueTurn>
  {
    env.mask(TagTurns(Heard(job, env).turns, env))
  }

  /** The exception comes after the increment of the expected index. */
  predicate AfterIncrement(env: Env)
  {
    Raises(env, ReadBuffer) || Raises(env, DropBuffered) || Raises(env, Resubmit)
  }

  /** The run meets no exception before the increment of the expected index. */
  predicate PastIncrement(env: Env)
  {
    env.fault.None? || AfterIncrement(env)
  }

  /** How many increments precede the exception, if any: one when it comes after the increment. */
  function Bump(env: Env): nat
  {
    if AfterIncrement(env) then 1 else 0
  }

  /**
   * The error policy, for a run that started in a state with expected index
   * `s.nextChunk`: a run that ends in a retry or a failure met the exception;
   * it is retried exactly when the error is transient and retries are left;
   * otherwise the run fails, or crashes exactly when the increment of the
   * failure branch raises; a failure reports the job's index; nothing is
   * re-sent; and the expected index has moved by the increments before the
   * exception plus one for a failure.
   */
  predicate Handled(r: Run, s: SessionState, job: Job, retries: nat, env: Env, bumped: nat)
  {
    (r.outcome.RetryLater? || r.outcome.Failed? || r.outcome.Crashed?) ==>
      env.fault.Some? && r.sent == []
      && (r.outcome.RetryLater? <==> retries < MaxRetries && env.fault.value.retryable)
      && (r.outcome.Crashed? <==> !(retries < MaxRetries && env.fault.value.retryable) && env.fault.value.advanceFails)
      && (r.outcome.Failed? ==> r.outcome.chunkIndex == job.chunkIndex)
      && r.state.nextChunk == s.nextChunk + bumped + (if r.outcome.Failed? then 1 else 0)
  }

  lemma DrainHandled(s: SessionState, job: Job, retries: nat, env: Env)
    ensures Handled(Drain(s, job, retries, env), s, job, retries, env, 0)
  {
  }

  lemma SettleHandled(s: SessionState, job: Job, retries: nat, env: Env)
    ensures Handled(Settle(s, job, retries, env), s, job, retries, env, Bump(env))
  {
    DrainHandled(s.(nextChunk := s.nextChunk + 1), job, retries, env);
  }

  lemma WrapHandled(s: SessionState, job: Job, retries: nat, env: Env)
    ensures Handled(Wrap(s, job, retries, env), s, job, retries, env, Bump(env))
  {
    SettleHandled(if Timed(job.isLastChunk, env) then s.(metrics := Hash(Metrics.HIncr(s.metrics.fields, LatencyField, env.latency))) else s,
                  job, retries, env);
  }

  /** A recovery from a state whose expected index is still the run's own is handled with no earlier increment. */
  lemma RecoverHandled(s: SessionState, s1: SessionState, job: Job, retries: nat, env: Env)
    requires env.fault.Some? && s1.nextChunk == s.nextChunk
    ensures Handled(Recover(s1, job, retries, env.fault.value), s, job, retries, env, 0)
  {
  }

  lemma FinishHandled(s: SessionState, job: Job, safe: seq<DialogueTurn>, delta: Note, retries: nat, env: Env)
    ensures Handled(Finish(s, job, safe, delta, retries, env), s, job, retries, env, Bump(env))
  {
    var k := job.chunkIndex;
    var warnings, alerts := env.check(safe, delta), env.detect(PlanText(delta));
    var s1 := s.(warnings := Hash(Notified(s.warnings.fields, k, env.now, warnings)));
    var s2 := s1.(safety := Hash(Notified(s1.safety.fields, k, env.now, alerts)));
    if Raises(env, QualityCheck) || (warnings != [] && Raises(env, SaveWarnings)) {
      RecoverHandled(s, s, job, retries, env);
    } else if Raises(env, SafetyCheck) || (alerts != [] && Raises(env, SaveAlerts)) {
      RecoverHandled(s, s1, job, retries, env);
    } else {
      assert Finish(s, job, safe, delta, retries, env) == Wrap(s2, job, retries, env);
      WrapHandled(s2, job, retries, env);
    }
  }

  lemma PersistHandled(st: SessionState, job: Job, note: Note, segments: seq<SegmentInfo>, safe: seq<DialogueTurn>,
                       retries: nat, env: Env)
    ensures Handled(Persist(st, job, note, segments, safe, retries, env), st, job, retries, env, Bump(env))
  {
    var s1 := st.(uiTranscript := st.uiTranscript + segments);
    var s2 := s1.(history := s1.history + safe);
    var s3 := s2.(metrics := Hash(GenMetrics(s2.metrics.fields, env)));
    var delta := Delta(s2.history, note, job.chunkIndex, env);
    if segments != [] && Raises(env, SaveSegments) {
      RecoverHandled(st, st, job, retries, env);
    } else if safe != [] && Raises(env, SaveTurns) {
      RecoverHandled(st, s1, job, retries, env);
    } else if Raises(env, ReadHistory) || Raises(env, Generate) || (GenTimed(env) && Raises(env, SaveGeneration)) {
      RecoverHandled(st, s2, job, retries, env);
    } else if Raises(env, SaveNote) {
      RecoverHandled(st, s3, job, retries, env);
    } else {
      assert Persist(st, job, note, segments, safe, retries, env) == Finish(s3.(soap := Some(Merge(note, delta))), job, safe, delta, retries, env);
      FinishHandled(s3.(soap := Some(Merge(note, delta))), job, safe, delta, retries, env);
    }
  }

  lemma OnTurnHandled(st: SessionState, job: Job, note: Note, retries: nat, env: Env)
    ensures Handled(OnTurn(st, job, note, retries, env), st, job, retries, env, Bump(env))
  {
    var tr := Heard(job, env);
    if Raises(env, Transcribe) || (tr.turns != [] && (Raises(env, AssignRoles) || Raises(env, Mask))) {
      RecoverHandled(st, st, job, retries, env);
    } else if tr.turns != [] {
      var tagged := TagTurns(tr.turns, env);
      PersistHandled(st, job, note, Relabel(tr.segments, tagged), env.mask(tagged), retries, env);
    }
  }

  /**
   * The error branch of a whole delivery: a retry exactly for a transient
   * error with fewer than three retries, a failure with the job's index
   * otherwise; nothing re-sent; the expected index advanced once for a
   * failure, and once more when the exception came after the increment.
   */
  lemma ProcessHandled(st: SessionState, job: Job, retries: nat, env: Env)
    ensures Handled(Process(st, job, retries, env), st, job, retries, env, Bump(env))
  {
    if job.currentNote.Given? {
      OnTurnHandled(st, job, IncomingNote(job.currentNote), retries, env);
    }
  }

  /** An early job is parked under its index, without the note, and nothing else changes. */
  lemma ProcessEarly(st: SessionState, job: Job, retries: nat, env: Env)
    requires job.currentNote.Given? && !Raises(env, ReadTicket) && !Raises(env, SaveBuffered)
    requires job.chunkIndex > st.nextChunk
    ensures Process(st, job, retries, env) ==
            Run(st.(buffer := Hash(st.buffer.fields[job.chunkIndex := PayloadOf(job)])), Buffered, [])
  {
  }

  /** A late job is skipped and changes nothing. */
  lemma ProcessLate(st: SessionState, job: Job, retries: nat, env: Env)
    requires job.currentNote.Given? && !Raises(env, ReadTicket)
    requires job.chunkIndex < st.nextChunk
    ensures Process(st, job, retries, env) == Run(st, Skipped, [])
  {
  }

  /**
   * A job on turn whose chunk holds no speech returns the note argument and
   * changes nothing: no history, no note, and no increment.
   */
  lemma ProcessSilence(st: SessionState, job: Job, retries: nat, env: Env)
    requires job.currentNote.Given? && !Raises(env, ReadTicket) && !Raises(env, Transcribe)
    requires job.chunkIndex == st.nextChunk && Heard(job, env).turns == []
    ensures Process(st, job, retries, env) == Run(st, NoSpeech(IncomingNote(job.currentNote)), [])
  {
  }

  /** The session after the notifications and the latency of a turn, with the expected index incremented. */
  function FinishedState(s: SessionState, job: Job, safe: seq<DialogueTurn>, delta: Note, env: Env): SessionState
  {
    var k := job.chunkIndex;
    s.(warnings := Hash(Notified(s.warnings.fields, k, env.now, env.check(safe, delta))),
       safety := Hash(Notified(s.safety.fields, k, env.now, env.detect(PlanText(delta)))),
       metrics := Hash(if Timed(job.isLastChunk, env) then Metrics.HIncr(s.metrics.fields, LatencyField, env.latency) else s.metrics.fields),
       nextChunk := s.nextChunk + 1)
  }

  /**
   * The session when a run with speech reaches the buffer hand-off: the
   * transcript and the history appended, the generation time added to the
   * metrics, the note argument merged with the delta, then the
   * notifications, the latency and the increment.
   */
  function HandOffState(st: SessionState, job: Job, note: Note, segments: seq<SegmentInfo>, safe: seq<DialogueTurn>,
                        env: Env): SessionState
  {
    var s1 := st.(uiTranscript := st.uiTranscript + segments);
    var s2 := s1.(history := s1.history + safe);
    var delta := Delta(s2.history, note, job.chunkIndex, env);
    FinishedState(s2.(metrics := Hash(GenMetrics(s2.metrics.fields, env)), soap := Some(Merge(note, delta))), job, safe, delta, env)
  }

  lemma SettleReachesDrain(s: SessionState, job: Job, retries: nat, env: Env)
    requires PastIncrement(env)
    ensures Settle(s, job, retries, env) == Drain(s.(nextChunk := s.nextChunk + 1), job, retries, env)
  {
  }

  lemma WrapReachesDrain(s: SessionState, job: Job, retries: nat, env: Env)
    requires PastIncrement(env)
    ensures Wrap(s, job, retries, env) ==
            Drain(s.(metrics := Hash(if Timed(job.isLastChunk, env) then Metrics.HIncr(s.metrics.fields, LatencyField, env.latency) else s.metrics.fields),
                     nextChunk := s.nextChunk + 1), job, retries, env)
  {
    SettleReachesDrain(if Timed(job.isLastChunk, env) then s.(metrics := Hash(Metrics.HIncr(s.metrics.fields, LatencyField, env.latency))) else s,
                       job, retries, env);
  }

  lemma FinishReachesDrain(s: SessionState, job: Job, safe: seq<DialogueTurn>, delta: Note, retries: nat, env: Env)
    requires PastIncrement(env)
    ensures Finish(s, job, safe, delta, retries, env) == Drain(FinishedState(s, job, safe, delta, env), job, retries, env)
  {
    var k := job.chunkIndex;
    var s1 := s.(warnings := Hash(Notified(s.warnings.fields, k, env.now, env.check(safe, delta))));
    var s2 := s1.(safety := Hash(Notified(s1.safety.fields, k, env.now, env.detect(PlanText(delta)))));
    assert Finish(s, job, safe, delta, retries, env) == Wrap(s2, job, retries, env);
    WrapReachesDrain(s2, job, retries, env);
  }

  /** With no exception before the increment, generation records its time and the merged note lands before the hand-off. */
  lemma ComposeReachesDrain(s: SessionState, job: Job, note: Note, safe: seq<DialogueTurn>, retries: nat, env: Env)
    requires PastIncrement(env)
    ensures var delta := Delta(s.history, note, job.chunkIndex, env);
            Compose(s, job, note, safe, retries, env) ==
            Drain(FinishedState(s.(metrics := Hash(GenMetrics(s.metrics.fields, env)), soap := Some(Merge(note, delta))),
                                job, safe, delta, env), job, retries, env)
  {
    var delta := Delta(s.history, note, job.chunkIndex, env);
    var s3 := s.(metrics := Hash(GenMetrics(s.metrics.fields, env)), soap := Some(Merge(note, delta)));
    assert Compose(s, job, note, safe, retries, env) == Finish(s3, job, safe, delta, retries, env);
    FinishReachesDrain(s3, job, safe, delta, retries, env);
  }

  /** With no exception before the increment, the writes of a turn all land before the hand-off. */
  lemma PersistReachesDrain(st: SessionState, job: Job, note: Note, segments: seq<SegmentInfo>, safe: seq<DialogueTurn>,
                            retries: nat, env: Env)
    requires PastIncrement(env)
    ensures Persist(st, job, note, segments, safe, retries, env) ==
            Drain(HandOffState(st, job, note, segments, safe, env), job, retries, env)
  {
    var s1 := st.(uiTranscript := st.uiTranscript + segments);
    var s2 := s1.(history := s1.history + safe);
    assert Persist(st, job, note, segments, safe, retries, env) == Compose(s2, job, note, safe, retries, env);
    ComposeReachesDrain(s2, job, note, safe, retries, env);
  }

  /** The same from the start of the on-turn pipeline, for a chunk with speech. */
  lemma OnTurnReachesDrain(st: SessionState, job: Job, note: Note, retries: nat, env: Env)
    requires PastIncrement(env) && Heard(job, env).turns != []
    ensures OnTurn(st, job, note, retries, env) ==
            Drain(HandOffState(st, job, note, Relabel(Heard(job, env).segments, TagTurns(Heard(job, env).turns, env)),
                               Safe(job, env), env), job, retries, env)
  {
    var tr := Heard(job, env);
    var tagged := TagTurns(tr.turns, env);
    PersistReachesDrain(st, job, note, Relabel(tr.segments, tagged), env.mask(tagged), retries, env);
  }

  /**
   * A job on turn, with speech and no exception: the history gains exactly
   * the chunk's masked turns; the stored note becomes the note ARGUMENT
   * merged with the delta; the warnings and the alerts (the delta's plan
   * texts joined by ", ") are recorded under the job's index when there are
   * any; the metrics gain the generation time and, for the last chunk, the
   * end-to-end latency; the expected index moves by one; and the payload
   * buffered for the new index, if any, is removed and re-sent.
   */
  lemma ProcessSucceeds(st: SessionState, job: Job, retries: nat, env: Env)
    requires job.currentNote.Given? && env.fault.None? && job.chunkIndex == st.nextChunk
    requires Heard(job, env).turns != []
    ensures var r := Process(st, job, retries, env);
      var note := IncomingNote(job.currentNote);
      var k := job.chunkIndex;
      var delta := Delta(st.history + Safe(job, env), note, k, env);
      r.outcome == Succeeded(k)
      && r.state.nextChunk == st.nextChunk + 1
      && r.state.history == st.history + Safe(job, env)
      && r.state.soap == Some(Merge(note, delta))
      && r.state.warnings.fields == Notified(st.warnings.fields, k, env.now, env.check(Safe(job, env), delta))
      && r.state.safety.fields == Notified(st.safety.fields, k, env.now, env.detect(PlanText(delta)))
      && r.state.metrics.fields == TurnMetrics(st.metrics.fields, job.isLastChunk, env)
      && r.state.buffer.fields == st.buffer.fields - {st.nextChunk + 1}
      && r.sent == ReplayOf(st.buffer.fields, st.nextChunk + 1)
  {
    var note := IncomingNote(job.currentNote);
    OnTurnReachesDrain(st, job, note, retries, env);
  }

  /** A notification hash gains an entry for chunk `k` exactly when there are messages, and no other entry changes. */
  lemma NotifiedOnlyNonEmpty(h: map<int, Entry>, k: int, now: string, messages: seq<string>)
    ensures messages == [] ==> Notified(h, k, now, messages) == h
    ensures messages != [] ==> k in Notified(h, k, now, messages) && Notified(h, k, now, messages)[k] == Entry(k, now, messages)
    ensures forall j :: j != k ==> (j in Notified(h, k, now, messages) <==> j in h)
    ensures forall j :: j != k && j in h ==> Notified(h, k, now, messages)[j] == h[j]
  {
  }

  // ---------------------------------------------------------------------
  // Where the code as written departs from the protocol (README, Findings)
  // ---------------------------------------------------------------------

  /**
   * Silence wedges the session: after a silent chunk on turn the expected
   * index has not moved, so the successor, which arrives with the next index,
   * is only parked, and no run will ever re-send it.
   */
  lemma SilenceStrandsSuccessor(st: SessionState, job: Job, retries: nat, env: Env, next: Job, retries2: nat, env2: Env)
    requires job.currentNote.Given? && env.fault.None?
    requires job.chunkIndex == st.nextChunk && Heard(job, env).turns == []
    requires next.currentNote.Given? && env2.fault.None? && next.chunkIndex == st.nextChunk + 1
    ensures var r := Process(st, job, retries, env);
      r.state.nextChunk == st.nextChunk
      && Process(r.state, next, retries2, env2).outcome == Buffered
      && Process(r.state, next, retries2, env2).state.nextChunk == st.nextChunk
  {
    ProcessSilence(st, job, retries, env);
    ProcessEarly(st, next, retries2, env2);
  }

  /**
   * A terminal failure of the job on turn advances the index but leaves the
   * successor in the buffer: it is never re-sent, and the buffer now holds an
   * index that is no longer ahead of the expected one.
   */
  lemma TerminalFailureStrands(st: SessionState, job: Job, retries: nat, env: Env)
    requires job.currentNote.Given? && job.chunkIndex == st.nextChunk
    requires env.fault.Some? && env.fault.value.stage == Transcribe
    requires !(retries < MaxRetries && env.fault.value.retryable) && !env.fault.value.advanceFails
    requires st.nextChunk + 1 in st.buffer.fields
    ensures var r := Process(st, job, retries, env);
      r.outcome == Failed(job.chunkIndex) && r.state.nextChunk == st.nextChunk + 1
      && r.sent == [] && st.nextChunk + 1 in r.state.buffer.fields
      && !IngestProtocol.BufferFiled(r.state)
  {
    var r := Process(st, job, retries, env);
    assert r == Run(st.(nextChunk := st.nextChunk + 1), Failed(job.chunkIndex), []);
    assert r.state.buffer == st.buffer;
  }

  /**
   * When the increment of the failure branch raises too, the exception
   * leaves the Celery task: the job on turn stays unsettled with the expected index
   * where it was, and whatever it had parked for later stays parked.
   */
  lemma FailedAdvanceStalls(st: SessionState, job: Job, retries: nat, env: Env)
    requires job.currentNote.Given? && job.chunkIndex == st.nextChunk
    requires env.fault.Some? && env.fault.value.stage == Transcribe
    requires !(retries < MaxRetries && env.fault.value.retryable) && env.fault.value.advanceFails
    ensures Process(st, job, retries, env) == Run(st, Crashed, [])
  {
  }

  /**
   * A terminal failure advances the index whoever's turn it is: an early job
   * that fails to park itself moves the index past the job whose turn it
   * was, and that job, when it comes, is skipped.
   */
  lemma EarlyFailureSkipsTurn(st: SessionState, job: Job, retries: nat, env: Env, onTurn: Job, retries2: nat, env2: Env)
    requires job.currentNote.Given? && job.chunkIndex > st.nextChunk
    requires env.fault == Some(Fault(SaveBuffered, false, false))
    requires onTurn.currentNote.Given? && onTurn.chunkIndex == st.nextChunk && !Raises(env2, ReadTicket)
    ensures var r := Process(st, job, retries, env);
      r.outcome == Failed(job.chunkIndex) && r.state.nextChunk == st.nextChunk + 1
      && Process(r.state, onTurn, retries2, env2) == Run(r.state, Skipped, [])
  {
    var r := Process(st, job, retries, env);
    assert r == Run(st.(nextChunk := st.nextChunk + 1), Failed(job.chunkIndex), []);
    ProcessLate(r.state, onTurn, retries2, env2);
  }

  /**
   * An exception after the increment advances the index a second time: a
   * failed read of the buffer moves the expected index two past the job's.
   */
  lemma LateFailureAdvancesTwice(st: SessionState, job: Job, retries: nat, env: Env)
    requires job.currentNote.Given? && job.chunkIndex == st.nextChunk && Heard(job, env).turns != []
    requires env.fault == Some(Fault(ReadBuffer, false, false))
    ensures Process(st, job, retries, env).outcome == Failed(job.chunkIndex)
    ensures Process(st, job, retries, env).state.nextChunk == st.nextChunk + 2
  {
    var note := IncomingNote(job.currentNote);
    ProcessOnTurn(st, job, retries, env);
    OnTurnReachesDrain(st, job, note, retries, env);
    var tr := Heard(job, env);
    var s := HandOffState(st, job, note, Relabel(tr.segments, TagTurns(tr.turns, env)), Safe(job, env), env);
    assert s.nextChunk == st.nextChunk + 1;
    ReadBufferFails(s, job, retries, env);
  }

  /** A job on turn whose ticket read succeeds runs the on-turn pipeline on its note argument. */
  lemma ProcessOnTurn(st: SessionState, job: Job, retries: nat, env: Env)
    requires job.currentNote.Given? && job.chunkIndex == st.nextChunk && !Raises(env, ReadTicket)
    ensures Process(st, job, retries, env) == OnTurn(st, job, IncomingNote(job.currentNote), retries, env)
  {
  }

  /** A terminal failure to read the buffer advances the index once more and fails the job. */
  lemma ReadBufferFails(s: SessionState, job: Job, retries: nat, env: Env)
    requires env.fault == Some(Fault(ReadBuffer, false, false))
    ensures Drain(s, job, retries, env) == Run(s.(nextChunk := s.nextChunk + 1), Failed(job.chunkIndex), [])
  {
  }

  /**
   * The note stored before the run plays no part: whatever note the session
   * held, the run stores the same note, built from the `current_note` argument.
   */
  lemma ProcessIgnoresStoredNote(st: SessionState, stored: Option<Note>, job: Job, retries: nat, env: Env)
    requires job.currentNote.Given? && env.fault.None? && job.chunkIndex == st.nextChunk
    requires Heard(job, env).turns != []
    ensures Process(st, job, retries, env).state.soap == Process(st.(soap := stored), job, retries, env).state.soap
  {
    ProcessSucceeds(st, job, retries, env);
    ProcessSucceeds(st.(soap := stored), job, retries, env);
  }

  /**
   * The job a successful run re-sends carries no `current_note`, so its own
   * run fails on the call and changes nothing.
   */
  lemma HandedOffJobFails(st: SessionState, job: Job, retries: nat, env: Env, retries2: nat, env2: Env)
    requires job.currentNote.Given? && env.fault.None? && job.chunkIndex == st.nextChunk
    requires Heard(job, env).turns != [] && st.nextChunk + 1 in st.buffer.fields
    ensures var r := Process(st, job, retries, env);
      r.sent != [] && Process(r.state, r.sent[0], retries2, env2) == Run(r.state, ArgumentError, [])
  {
    ProcessSucceeds(st, job, retries, env);
  }

  /** A transient failure to read the history back leaves the appended turns behind and asks for a retry. */
  lemma HistoryFaultKeepsTurns(st: SessionState, job: Job, retries: nat, env: Env)
    requires job.currentNote.Given? && job.chunkIndex == st.nextChunk && Heard(job, env).turns != []
    requires env.fault == Some(Fault(ReadHistory, true, false)) && retries < MaxRetries
    ensures Process(st, job, retries, env).outcome == RetryLater
    ensures Process(st, job, retries, env).state.history == st.history + Safe(job, env)
    ensures Process(st, job, retries, env).state.nextChunk == st.nextChunk
  {
    var tr := Heard(job, env);
    var tagged := TagTurns(tr.turns, env);
    var segments := Relabel(tr.segments, tagged);
    var s1 := st.(uiTranscript := st.uiTranscript + segments);
    var s2 := s1.(history := s1.history + Safe(job, env));
    assert Persist(st, job, IncomingNote(job.currentNote), segments, Safe(job, env), retries, env) == Run(s2, RetryLater, []);
  }

  /**
   * A retry re-appends: after a transient failure to read the history back,
   * the retried run that succeeds leaves the chunk's turns in the history
   * twice.
   */
  lemma RetryDuplicatesHistory(st: SessionState, job: Job, retries: nat, env: Env)
    requires job.currentNote.Given? && job.chunkIndex == st.nextChunk && Heard(job, env).turns != []
    requires env.fault == Some(Fault(ReadHistory, true, false)) && retries < MaxRetries
    ensures var r := Process(st, job, retries, env);
      Process(r.state, job, retries + 1, env.(fault := None)).state.history == st.history + Safe(job, env) + Safe(job, env)
  {
    HistoryFaultKeepsTurns(st, job, retries, env);
    var r := Process(st, job, retries, env);
    var env2 := env.(fault := None);
    assert Heard(job, env2) == Heard(job, env) && Safe(job, env2) == Safe(job, env);
    ProcessSucceeds(r.state, job, retries + 1, env2);
  }
}
