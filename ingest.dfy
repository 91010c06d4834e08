/**
 * The chunk worker `process_audio_chunk`, as the code is written.
 *
 * A job carries one audio chunk of a session. The worker compares the job's
 * chunk index with the session's expected index: an early job is parked in
 * the buffer hash, a late one is dropped, and the job whose turn it is runs
 * the pipeline (transcription, role tagging, masking, history append, note
 * generation and merge, quality and safety notifications, latency) and then
 * advances the expected index and re-submits the buffered job for the new
 * index. An exception anywhere is either retried (transient errors, fewer
 * than three retries so far) or, terminally, the index is advanced anyway.
 *
 * The collaborators (speech recognition, the role classifier, masking, the
 * language model, the quality check, the safety detector, the clock) are
 * inputs of the model (`Env`); so is the one exception a run may meet.
 */
module Ingest {
  import opened Common
  import opened Json
  import opened Document
  import opened Schemas
  import opened Store
  import LlmHandler
  import RoleService
  import Metrics
  import Conversation
  import Buffer
  import Documents
  import Notification

  /**
   * The `current_note` keyword argument: omitted altogether (the call then
   * fails before the body runs), or given as JSON that either validates as a
   * note or does not.
   */
  datatype NoteArg = Omitted | Given(decoded: Option<Note>)

  /** The keyword arguments of one task message. */
  datatype Job = Job(filePath: string, sessionId: string, chunkIndex: int, isLastChunk: bool, currentNote: NoteArg)

  /** The points of the worker at which an exception can be raised. */
  datatype Stage =
    | ReadTicket | SaveBuffered | Transcribe | AssignRoles | Mask | SaveSegments | SaveTurns
    | ReadHistory | Generate | SaveGeneration | SaveNote | QualityCheck | SaveWarnings | SafetyCheck | SaveAlerts
    | SaveLatency | RemoveFile | Advance | ReadBuffer | DropBuffered | Resubmit

  /**
   * An exception raised at `stage`; `retryable` when it is a connection or
   * timeout error; `advanceFails` when the increment that the `except`
   * branch makes for a terminal failure raises in its turn.
   */
  datatype Fault = Fault(stage: Stage, retryable: bool, advanceFails: bool)

  /** What the speech recogniser returns for one chunk: the turns and the UI segments. */
  datatype Transcription = Transcription(turns: seq<DialogueTurn>, segments: seq<SegmentInfo>)

  /** The worker's collaborators and the one exception (if any) this run meets. */
  datatype Env = Env(
    transcribe: (string, int) -> Transcription,
    roleAnswer: seq<DialogueTurn> -> Option<string>,
    roleLoads: Decoder,
    mask: seq<DialogueTurn> -> seq<DialogueTurn>,
    scribe: (seq<DialogueTurn>, Note, int) -> Note,
    // the duration of the generation call, in milliseconds
    scribeLatency: real,
    // the `warnings` list of the guardrail analysis of the delta's item texts
    check: (seq<DialogueTurn>, Note) -> seq<string>,
    detect: string -> seq<string>,
    latency: real,
    now: string,
    fault: Option<Fault>)

  /** The value the Celery task returns (or the way it ends). */
  datatype Outcome =
    | Buffered                 // {"status": "buffered"}
    | Skipped                  // {"status": "skipped", "reason": "already_processed"}
    | NoSpeech(summary: Note)  // the ScribeResponse with interaction_id "empty"
    | Succeeded(chunkIndex: int)
    | RetryLater               // self.retry() raised
    | Failed(chunkIndex: int)  // {"status": "failed", "handled": True}
    | Crashed                  // the except branch's own increment raised out of the Celery task
    | ArgumentError            // the call itself raised TypeError

  /** A run of the worker: the session's state after it, its outcome, and the Celery messages it sent. */
  datatype Run = Run(state: SessionState, outcome: Outcome, sent: seq<Job>)

  /** `self.max_retries or 2`, with the Celery task declared `max_retries=3`. */
  const MaxRetries: nat := 3

  const LatencyField: string := "final_e2e_latency_ms"

  /** The field that `generate_scribe` adds its own duration to. */
  const GenerationField: string := "total_latency_ms"

  predicate Raises(env: Env, stage: Stage)
  {
    env.fault.Some? && env.fault.value.stage == stage
  }

  /** The note argument after validation; JSON that does not validate becomes the empty note. */
  function IncomingNote(arg: NoteArg): Note
    requires arg.Given?
  {
    if arg.decoded.Some? then arg.decoded.value else Empty()
  }

  /** The buffer payload of an early job: everything but the note. */
  function PayloadOf(job: Job): Payload
  {
    Payload(job.filePath, job.sessionId, job.chunkIndex, job.isLastChunk)
  }

  /** The Celery message sent for a buffered payload: the four fields, and no `current_note`. */
  function Replayed(p: Payload): Job
  {
    Job(p.filePath, p.sessionId, p.chunkIndex, p.isLastChunk, Omitted)
  }

  /** The turns tagged with the roles the classifier's answer assigns. */
  function TagTurns(turns: seq<DialogueTurn>, env: Env): seq<DialogueTurn>
  {
    RoleService.Tagged(turns, RoleService.RolesFromAnswer(env.roleAnswer(turns), env.roleLoads))
  }

  /** Each UI segment takes the role of the tagged turn at its position, when there is one. */
  function Relabel(segments: seq<SegmentInfo>, tagged: seq<DialogueTurn>): (r: seq<SegmentInfo>)
    ensures |r| == |segments|
    ensures forall i :: 0 <= i < |r| ==>
              r[i] == (if i < |tagged| then segments[i].(speaker := tagged[i].role) else segments[i])
  {
    seq(|segments|, i requires 0 <= i < |segments| =>
      if i < |tagged| then segments[i].(speaker := tagged[i].role) else segments[i])
  }

  /** The delta note of chunk `k`: the `generated_summary` of the scribe response for the history and the note. */
  function Delta(history: seq<DialogueTurn>, note: Note, k: int, env: Env): Note
  {
    env.scribe(history, note, k)
  }

  /** The scribe stamps every item it returns with the chunk it was asked about. */
  ghost predicate Stamping(env: Env)
  {
    forall history, note, k :: StampedWith(env.scribe(history, note, k), k)
  }

  /**
   * The scribe of the language-model service, which parses the model's answer
   * for chunk `k` with `LlmHandler.ParsedNote`, is a stamping scribe.
   */
  lemma ParsedScribeStamps(env: Env, answer: (seq<DialogueTurn>, Note, int) -> string, loads: Decoder)
    requires forall history, note, k :: env.scribe(history, note, k) == LlmHandler.ParsedNote(answer(history, note, k), k, loads)
    ensures Stamping(env)
  {
    forall history, note, k ensures StampedWith(env.scribe(history, note, k), k) {
      assert env.scribe(history, note, k) == LlmHandler.NoteOf(loads(LlmHandler.CleanText(answer(history, note, k))), k);
    }
  }

  /** The text the safety detector reads: the delta's plan item texts joined by ", ". */
  function PlanText(delta: Note): string
  {
    Join(", ", seq(|delta.plan|, i requires 0 <= i < |delta.plan| => delta.plan[i].text))
  }

  /** A notification hash after recording `messages` for chunk `k`; nothing is written for none. */
  function Notified(h: map<int, Entry>, k: int, now: string, messages: seq<string>): map<int, Entry>
  {
    if messages == [] then h else h[k := Entry(k, now, messages)]
  }

  /** Whether the latency of the run is added to the metrics: last chunk, and a non-zero value. */
  predicate Timed(isLastChunk: bool, env: Env)
  {
    isLastChunk && env.latency != 0.0
  }

  /** Whether generation adds its duration to the metrics: a non-zero duration, the falsy guard of `update_metrics`. */
  predicate GenTimed(env: Env)
  {
    env.scribeLatency != 0.0
  }

  /** The metrics fields after `generate_scribe`: its duration added to `total_latency_ms` when non-zero. */
  function GenMetrics(fields: map<string, real>, env: Env): map<string, real>
  {
    if GenTimed(env) then Metrics.HIncr(fields, GenerationField, env.scribeLatency) else fields
  }

  /** The metrics fields after a whole turn: the generation time, then the latency of the last chunk. */
  function TurnMetrics(fields: map<string, real>, isLastChunk: bool, env: Env): map<string, real>
  {
    var g := GenMetrics(fields, env);
    if Timed(isLastChunk, env) then Metrics.HIncr(g, LatencyField, env.latency) else g
  }

  /**
   * The `except Exception` branch: a retryable error with retries left re-raises
   * a retry and writes nothing more; any other error advances the expected
   * index (whoever's turn it is) and reports the job failed, unless that
   * increment raises too, which ends the Celery task with the index where it was.
   */
  function Recover(s: SessionState, job: Job, retries: nat, f: Fault): Run
  {
    if retries < MaxRetries && f.retryable then Run(s, RetryLater, [])
    else if f.advanceFails then Run(s, Crashed, [])
    else Run(s.(nextChunk := s.nextChunk + 1), Failed(job.chunkIndex), [])
  }

  /** One delivery of `job` to the worker, `retries` being the number of earlier retries of it. */
  function Process(st: SessionState, job: Job, retries: nat, env: Env): Run
  {
    if job.currentNote.Omitted? then Run(st, ArgumentError, [])
    else
      var note := IncomingNote(job.currentNote);
      if Raises(env, ReadTicket) then Recover(st, job, retries, env.fault.value)
      else if job.chunkIndex > st.nextChunk then
        if Raises(env, SaveBuffered) then Recover(st, job, retries, env.fault.value)
        else Run(st.(buffer := Hash(st.buffer.fields[job.chunkIndex := PayloadOf(job)])), Buffered, [])
      else if job.chunkIndex < st.nextChunk then Run(st, Skipped, [])
      else OnTurn(st, job, note, retries, env)
  }

  /** The pipeline of the job whose turn it is: transcription, the silence exit, tagging and masking. */
  function OnTurn(st: SessionState, job: Job, note: Note, retries: nat, env: Env): Run
  {
    if Raises(env, Transcribe) then Recover(st, job, retries, env.fault.value)
    else
      var tr := env.transcribe(job.filePath, job.chunkIndex);
      if tr.turns == [] then Run(st, NoSpeech(note), [])
      else if Raises(env, AssignRoles) then Recover(st, job, retries, env.fault.value)
      else
        var tagged := TagTurns(tr.turns, env);
        if Raises(env, Mask) then Recover(st, job, retries, env.fault.value)
        else Persist(st, job, note, Relabel(tr.segments, tagged), env.mask(tagged), retries, env)
  }

  /** The writes of the transcript, the history and the merged note. */
  function Persist(st: SessionState, job: Job, note: Note, segments: seq<SegmentInfo>, safe: seq<DialogueTurn>,
                   retries: nat, env: Env): Run
  {
    if segments != [] && Raises(env, SaveSegments) then Recover(st, job, retries, env.fault.value)
    else
      var s1 := st.(uiTranscript := st.uiTranscript + segments);
      if safe != [] && Raises(env, SaveTurns) then Recover(s1, job, retries, env.fault.value)
      else
        Compose(s1.(history := s1.history + safe), job, note, safe, retries, env)
  }

  /**
   * The history read back, the delta generated from it (with the generation
   * time added to the metrics inside `generate_scribe`), and the merged note
   * written.
   */
  function Compose(s: SessionState, job: Job, note: Note, safe: seq<DialogueTurn>, retries: nat, env: Env): Run
  {
    if Raises(env, ReadHistory) || Raises(env, Generate) then Recover(s, job, retries, env.fault.value)
    else if GenTimed(env) && Raises(env, SaveGeneration) then Recover(s, job, retries, env.fault.value)
    else
      var s1 := s.(metrics := Hash(GenMetrics(s.metrics.fields, env)));
      var delta := Delta(s.history, note, job.chunkIndex, env);
      if Raises(env, SaveNote) then Recover(s1, job, retries, env.fault.value)
      else Finish(s1.(soap := Some(Merge(note, delta))), job, safe, delta, retries, env)
  }

  /** The quality-check warnings and the safety alerts of the delta, each stored only when there are some. */
  function Finish(s: SessionState, job: Job, safe: seq<DialogueTurn>, delta: Note, retries: nat, env: Env): Run
  {
    var k := job.chunkIndex;
    if Raises(env, QualityCheck) then Recover(s, job, retries, env.fault.value)
    else
      var warnings := env.check(safe, delta);
      if warnings != [] && Raises(env, SaveWarnings) then Recover(s, job, retries, env.fault.value)
      else
        Caution(s.(warnings := Hash(Notified(s.warnings.fields, k, env.now, warnings))), job, delta, retries, env)
  }

  /** The safety alerts of the delta's plan, stored only when there are some. */
  function Caution(s: SessionState, job: Job, delta: Note, retries: nat, env: Env): Run
  {
    if Raises(env, SafetyCheck) then Recover(s, job, retries, env.fault.value)
    else
      var alerts := env.detect(PlanText(delta));
      if alerts != [] && Raises(env, SaveAlerts) then Recover(s, job, retries, env.fault.value)
      else Wrap(s.(safety := Hash(Notified(s.safety.fields, job.chunkIndex, env.now, alerts))), job, retries, env)
  }

  /** The latency of the last chunk, then the rest of the run. */
  function Wrap(s: SessionState, job: Job, retries: nat, env: Env): Run
  {
    if Timed(job.isLastChunk, env) && Raises(env, SaveLatency) then Recover(s, job, retries, env.fault.value)
    else
      Settle(if Timed(job.isLastChunk, env) then s.(metrics := Hash(Metrics.HIncr(s.metrics.fields, LatencyField, env.latency))) else s,
             job, retries, env)
  }

  /** The file removal and the increment of the expected index, then the hand-off. */
  function Settle(s: SessionState, job: Job, retries: nat, env: Env): Run
  {
    if Raises(env, RemoveFile) || Raises(env, Advance) then Recover(s, job, retries, env.fault.value)
    else Drain(s.(nextChunk := s.nextChunk + 1), job, retries, env)
  }

  /** The Celery message re-sent for the payload buffered under `next`, if there is one. */
  function ReplayOf(buffer: map<int, Payload>, next: int): seq<Job>
  {
    if next in buffer then [Replayed(buffer[next])] else []
  }

  /** After the increment: the buffered payload for the new expected index, if any, is removed and re-sent. */
  function Drain(s: SessionState, job: Job, retries: nat, env: Env): Run
  {
    var next := s.nextChunk;
    if Raises(env, ReadBuffer) then Recover(s, job, retries, env.fault.value)
    else if next !in s.buffer.fields then Run(s, Succeeded(job.chunkIndex), [])
    else Resend(s, job, s.buffer.fields[next], retries, env)
  }

  /** The payload found for the expected index is removed from the buffer and re-sent. */
  function Resend(s: SessionState, job: Job, payload: Payload, retries: nat, env: Env): Run
  {
    if Raises(env, DropBuffered) then Recover(s, job, retries, env.fault.value)
    else
      var s1 := s.(buffer := Hash(s.buffer.fields - {s.nextChunk}));
      if Raises(env, Resubmit) then Recover(s1, job, retries, env.fault.value)
      else Run(s1, Succeeded(job.chunkIndex), [Replayed(payload)])
  }

  /** The loop that copies each tagged turn's role onto the UI segment at the same position. */
  method RelabelSegments(segments: seq<SegmentInfo>, tagged: seq<DialogueTurn>) returns (r: seq<SegmentInfo>)
    ensures r == Relabel(segments, tagged)
  {
    r := segments;
    var i := 0;
    while i < |tagged|
      invariant 0 <= i <= |tagged| && |r| == |segments|
      invariant forall j :: 0 <= j < |r| ==>
                  r[j] == (if j < i && j < |tagged| then segments[j].(speaker := tagged[j].role) else segments[j])
    {
      if i < |r| {
        r := r[i := r[i].(speaker := tagged[i].role)];
      }
      i := i + 1;
    }
  }

  /**
   * The worker: the store it shares, the five repositories it builds over
   * that store on entry, and the Celery messages it has sent.
   */
  class Worker {
    const redis: Redis
    const conversation: Conversation.ConversationRepositorySync
    const documents: Documents.DocumentServiceSync
    const metrics: Metrics.MetricsServiceSync
    const notification: Notification.NotificationServiceSync
    const buffer: Buffer.BufferServiceSync
    var sent: seq<Job>

    /** Every repository works on the worker's store. */
    predicate Wired()
    {
      conversation.redis == redis && documents.redis == redis && metrics.redis == redis
      && notification.redis == redis && buffer.redis == redis
    }

    constructor(redis: Redis)
      ensures this.redis == redis && Wired() && sent == []
    {
      this.redis := redis;
      conversation := new Conversation.ConversationRepositorySync(redis);
      documents := new Documents.DocumentServiceSync(redis);
      metrics := new Metrics.MetricsServiceSync(redis);
      notification := new Notification.NotificationServiceSync(redis);
      buffer := new Buffer.BufferServiceSync(redis);
      sent := [];
    }

    /** `process_audio_chunk`: changes the job's session as `Process` says and sends what it says. */
    method ProcessAudioChunk(job: Job, retries: nat, env: Env) returns (outcome: Outcome)
      requires Wired()
      modifies this, redis
      ensures redis.Get(job.sessionId) == Process(old(redis.Get(job.sessionId)), job, retries, env).state
      ensures outcome == Process(old(redis.Get(job.sessionId)), job, retries, env).outcome
      ensures sent == old(sent) + Process(old(redis.Get(job.sessionId)), job, retries, env).sent
      ensures SameExcept(old(redis.sessions), redis.sessions, job.sessionId)
    {
      if job.currentNote.Omitted? {
        return ArgumentError;
      }
      var note := IncomingNote(job.currentNote);
      var sid := job.sessionId;
      if Raises(env, ReadTicket) {
        outcome := Fail(job, retries, env.fault.value);
        return;
      }
      var expected := conversation.GetExpectedChunkIndex(sid);
      if job.chunkIndex > expected {
        if Raises(env, SaveBuffered) {
          outcome := Fail(job, retries, env.fault.value);
          return;
        }
        buffer.SaveChunk(sid, job.chunkIndex, PayloadOf(job));
        return Buffered;
      }
      if job.chunkIndex < expected {
        return Skipped;
      }
      outcome := RunPipeline(job, note, retries, env);
    }

    /** The on-turn part, mirroring `OnTurn`. */
    method RunPipeline(job: Job, note: Note, retries: nat, env: Env) returns (outcome: Outcome)
      requires Wired()
      modifies this, redis
      ensures redis.Get(job.sessionId) == OnTurn(old(redis.Get(job.sessionId)), job, note, retries, env).state
      ensures outcome == OnTurn(old(redis.Get(job.sessionId)), job, note, retries, env).outcome
      ensures sent == old(sent) + OnTurn(old(redis.Get(job.sessionId)), job, note, retries, env).sent
      ensures SameExcept(old(redis.sessions), redis.sessions, job.sessionId)
    {
      if Raises(env, Transcribe) {
        outcome := Fail(job, retries, env.fault.value);
        return;
      }
      var tr := env.transcribe(job.filePath, job.chunkIndex);
      if tr.turns == [] {
        return NoSpeech(note);
      }
      if Raises(env, AssignRoles) {
        outcome := Fail(job, retries, env.fault.value);
        return;
      }
      var tagged := RoleService.AssignRoles(tr.turns, env.roleAnswer(tr.turns), env.roleLoads);
      var segments := RelabelSegments(tr.segments, tagged);
      if Raises(env, Mask) {
        outcome := Fail(job, retries, env.fault.value);
        return;
      }
      outcome := Save(job, note, segments, env.mask(tagged), retries, env);
    }

    /** Transcript, history, generation and the note write, mirroring `Persist`. */
    method Save(job: Job, note: Note, segments: seq<SegmentInfo>, safe: seq<DialogueTurn>, retries: nat, env: Env)
      returns (outcome: Outcome)
      requires Wired()
      modifies this, redis
      ensures redis.Get(job.sessionId) == Persist(old(redis.Get(job.sessionId)), job, note, segments, safe, retries, env).state
      ensures outcome == Persist(old(redis.Get(job.sessionId)), job, note, segments, safe, retries, env).outcome
      ensures sent == old(sent) + Persist(old(redis.Get(job.sessionId)), job, note, segments, safe, retries, env).sent
      ensures SameExcept(old(redis.sessions), redis.sessions, job.sessionId)
    {
      var sid := job.sessionId;
      if segments != [] && Raises(env, SaveSegments) {
        outcome := Fail(job, retries, env.fault.value);
        return;
      }
      conversation.AddUiSegments(sid, segments);
      if safe != [] && Raises(env, SaveTurns) {
        outcome := Fail(job, retries, env.fault.value);
        return;
      }
      conversation.AddDialogueTurns(sid, safe);
      outcome := WriteNote(job, note, safe, retries, env);
    }

    /** The read-back, generation and note write, mirroring `Compose`. */
    method WriteNote(job: Job, note: Note, safe: seq<DialogueTurn>, retries: nat, env: Env) returns (outcome: Outcome)
      requires Wired()
      modifies this, redis
      ensures redis.Get(job.sessionId) == Compose(old(redis.Get(job.sessionId)), job, note, safe, retries, env).state
      ensures outcome == Compose(old(redis.Get(job.sessionId)), job, note, safe, retries, env).outcome
      ensures sent == old(sent) + Compose(old(redis.Get(job.sessionId)), job, note, safe, retries, env).sent
      ensures SameExcept(old(redis.sessions), redis.sessions, job.sessionId)
    {
      var sid := job.sessionId;
      if Raises(env, ReadHistory) || Raises(env, Generate) {
        outcome := Fail(job, retries, env.fault.value);
        return;
      }
      var history := conversation.GetDialogueHistory(sid);
      if GenTimed(env) && Raises(env, SaveGeneration) {
        outcome := Fail(job, retries, env.fault.value);
        return;
      }
      RecordGeneration(job, env);
      var delta := env.scribe(history, note, job.chunkIndex);
      if Raises(env, SaveNote) {
        outcome := Fail(job, retries, env.fault.value);
        return;
      }
      documents.UpdateSoapNote(sid, Merge(note, delta));
      outcome := Notify(job, safe, delta, retries, env);
    }

    /** The quality and safety notifications, mirroring `Finish`. */
    method Notify(job: Job, safe: seq<DialogueTurn>, delta: Note, retries: nat, env: Env) returns (outcome: Outcome)
      requires Wired()
      modifies this, redis
      ensures redis.Get(job.sessionId) == Finish(old(redis.Get(job.sessionId)), job, safe, delta, retries, env).state
      ensures outcome == Finish(old(redis.Get(job.sessionId)), job, safe, delta, retries, env).outcome
      ensures sent == old(sent) + Finish(old(redis.Get(job.sessionId)), job, safe, delta, retries, env).sent
      ensures SameExcept(old(redis.sessions), redis.sessions, job.sessionId)
    {
      var sid, k := job.sessionId, job.chunkIndex;
      if Raises(env, QualityCheck) {
        outcome := Fail(job, retries, env.fault.value);
        return;
      }
      var warnings := env.check(safe, delta);
      if warnings != [] && Raises(env, SaveWarnings) {
        outcome := Fail(job, retries, env.fault.value);
        return;
      }
      notification.AddWarning(sid, warnings, k, env.now);
      outcome := CheckSafety(job, delta, retries, env);
    }

    /** The safety check of the delta's plan, mirroring `Caution`. */
    method CheckSafety(job: Job, delta: Note, retries: nat, env: Env) returns (outcome: Outcome)
      requires Wired()
      modifies this, redis
      ensures redis.Get(job.sessionId) == Caution(old(redis.Get(job.sessionId)), job, delta, retries, env).state
      ensures outcome == Caution(old(redis.Get(job.sessionId)), job, delta, retries, env).outcome
      ensures sent == old(sent) + Caution(old(redis.Get(job.sessionId)), job, delta, retries, env).sent
      ensures SameExcept(old(redis.sessions), redis.sessions, job.sessionId)
    {
      if Raises(env, SafetyCheck) {
        outcome := Fail(job, retries, env.fault.value);
        return;
      }
      var alerts := env.detect(PlanText(delta));
      if alerts != [] && Raises(env, SaveAlerts) {
        outcome := Fail(job, retries, env.fault.value);
        return;
      }
      notification.AddSafetyAlert(job.sessionId, alerts, job.chunkIndex, env.now);
      outcome := Complete(job, retries, env);
    }

    /** The latency of the last chunk, mirroring `Wrap`. */
    method Complete(job: Job, retries: nat, env: Env) returns (outcome: Outcome)
      requires Wired()
      modifies this, redis
      ensures redis.Get(job.sessionId) == Wrap(old(redis.Get(job.sessionId)), job, retries, env).state
      ensures outcome == Wrap(old(redis.Get(job.sessionId)), job, retries, env).outcome
      ensures sent == old(sent) + Wrap(old(redis.Get(job.sessionId)), job, retries, env).sent
      ensures SameExcept(old(redis.sessions), redis.sessions, job.sessionId)
    {
      if Timed(job.isLastChunk, env) && Raises(env, SaveLatency) {
        outcome := Fail(job, retries, env.fault.value);
        return;
      }
      RecordLatency(job, env);
      outcome := Increment(job, retries, env);
    }

    /** File removal, the increment and the hand-off, mirroring `Settle`. */
    method Increment(job: Job, retries: nat, env: Env) returns (outcome: Outcome)
      requires Wired()
      modifies this, redis
      ensures redis.Get(job.sessionId) == Settle(old(redis.Get(job.sessionId)), job, retries, env).state
      ensures outcome == Settle(old(redis.Get(job.sessionId)), job, retries, env).outcome
      ensures sent == old(sent) + Settle(old(redis.Get(job.sessionId)), job, retries, env).sent
      ensures SameExcept(old(redis.sessions), redis.sessions, job.sessionId)
    {
      var sid := job.sessionId;
      if Raises(env, RemoveFile) || Raises(env, Advance) {
        outcome := Fail(job, retries, env.fault.value);
        return;
      }
      ghost var s0 := redis.Get(sid);
      var next := conversation.IncrementExpectedChunkIndex(sid);
      ghost var s1 := redis.Get(sid);
      assert s1 == s0.(nextChunk := s0.nextChunk + 1);
      assert Settle(s0, job, retries, env) == Drain(s1, job, retries, env);
      outcome := Replay(job, next, retries, env);
    }

    /** `update_metrics(session_id, duration, 'total_latency_ms')` inside `generate_scribe`. */
    method RecordGeneration(job: Job, env: Env)
      requires Wired()
      modifies redis
      ensures redis.Get(job.sessionId) == old(redis.Get(job.sessionId)).(metrics :=
                Hash(GenMetrics(old(redis.Get(job.sessionId)).metrics.fields, env)))
      ensures SameExcept(old(redis.sessions), redis.sessions, job.sessionId)
    {
      metrics.UpdateMetrics(job.sessionId, Metrics.Single(Metrics.FloatNum(env.scribeLatency)), Some(GenerationField));
    }

    /** `update_metrics(session_id, pipeline_duration, 'final_e2e_latency_ms')` for the last chunk. */
    method RecordLatency(job: Job, env: Env)
      requires Wired()
      modifies redis
      ensures redis.Get(job.sessionId) == old(redis.Get(job.sessionId)).(metrics :=
                Hash(if Timed(job.isLastChunk, env) then Metrics.HIncr(old(redis.Get(job.sessionId)).metrics.fields, LatencyField, env.latency)
                else old(redis.Get(job.sessionId)).metrics.fields))
      ensures SameExcept(old(redis.sessions), redis.sessions, job.sessionId)
    {
      if job.isLastChunk {
        metrics.UpdateMetrics(job.sessionId, Metrics.Single(Metrics.FloatNum(env.latency)), Some(LatencyField));
      }
    }

    /** The hand-off to the buffered job for index `next`, mirroring `Drain`. */
    method Replay(job: Job, next: int, retries: nat, env: Env) returns (outcome: Outcome)
      requires Wired()
      modifies this, redis
      requires next == redis.Get(job.sessionId).nextChunk
      ensures redis.Get(job.sessionId) == Drain(old(redis.Get(job.sessionId)), job, retries, env).state
      ensures outcome == Drain(old(redis.Get(job.sessionId)), job, retries, env).outcome
      ensures sent == old(sent) + Drain(old(redis.Get(job.sessionId)), job, retries, env).sent
      ensures SameExcept(old(redis.sessions), redis.sessions, job.sessionId)
    {
      if Raises(env, ReadBuffer) {
        outcome := Fail(job, retries, env.fault.value);
        return;
      }
      var payload := buffer.GetChunk(job.sessionId, next);
      if payload.None? {
        return Succeeded(job.chunkIndex);
      }
      outcome := HandOff(job, next, payload.value, retries, env);
    }

    /** The removal and re-sending of the buffered payload, mirroring `Resend`. */
    method HandOff(job: Job, next: int, payload: Payload, retries: nat, env: Env) returns (outcome: Outcome)
      requires Wired()
      modifies this, redis
      requires next == redis.Get(job.sessionId).nextChunk
      ensures redis.Get(job.sessionId) == Resend(old(redis.Get(job.sessionId)), job, payload, retries, env).state
      ensures outcome == Resend(old(redis.Get(job.sessionId)), job, payload, retries, env).outcome
      ensures sent == old(sent) + Resend(old(redis.Get(job.sessionId)), job, payload, retries, env).sent
      ensures SameExcept(old(redis.sessions), redis.sessions, job.sessionId)
    {
      if Raises(env, DropBuffered) {
        outcome := Fail(job, retries, env.fault.value);
        return;
      }
      buffer.DelChunk(job.sessionId, next);
      if Raises(env, Resubmit) {
        outcome := Fail(job, retries, env.fault.value);
        return;
      }
      sent := sent + [Replayed(payload)];
      return Succeeded(job.chunkIndex);
    }

    /** The `except Exception` branch, mirroring `Recover`. */
    method Fail(job: Job, retries: nat, f: Fault) returns (outcome: Outcome)
      requires Wired()
      modifies redis
      ensures redis.Get(job.sessionId) == Recover(old(redis.Get(job.sessionId)), job, retries, f).state
      ensures outcome == Recover(old(redis.Get(job.sessionId)), job, retries, f).outcome
      ensures SameExcept(old(redis.sessions), redis.sessions, job.sessionId)
    {
      if retries < MaxRetries && f.retryable {
        return RetryLater;
      }
      if f.advanceFails {
        return Crashed;
      }
      var _ := conversation.IncrementExpectedChunkIndex(job.sessionId);
      return Failed(job.chunkIndex);
    }
  }
}
