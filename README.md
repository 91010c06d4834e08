# Incremental clinical scribe: chunk sequencer, session store and data pipeline

This project models the core of a medical scribe backend and proves properties of it in Dafny.
The backend transcribes a consultation in audio chunks, one job per chunk, and builds a SOAP
note (Subjective, Objective, Assessment, Plan) from the chunks as they arrive.

- **Chunk sequencer** (`process_audio_chunk`, modules `Ingest`, `IngestFacts`, `IngestProtocol`).
  A job compares its chunk index with the session's expected index.
  - An early job is parked in the session's buffer hash.
  - A late job is skipped.
  - A job on turn runs the pipeline: transcription, role tagging, masking, history append,
    delta generation, note merge and persist, warnings and safety alerts, then it increments
    the expected index and re-sends the buffered successor.
  - On an exception the job either asks for a retry or, as a terminal failure, advances the
    index and gives up.

  `Ingest.Process` is the run of `process_audio_chunk` as a function of the store state, the
  job and the collaborators' answers. It follows the written code branch by branch, but the
  code as written cannot run: the task module fails to import (names missing from the schemas
  and the metrics repository), the repository wiring and the empty-note constructor raise,
  both `ScribeResponse` constructions lack required fields, and the guardrail call raises on
  any delta with an item. At each of these places the model follows the evident intent; the
  `Ingest.Process` line under "## Left out" lists them.
  `Ingest.Worker.ProcessAudioChunk` performs the same run step by step on the repositories and
  is proved equal to it. `IngestFacts` proves what the written code does on each path,
  including the defects listed under "## Findings". `IngestProtocol.Step` is the corrected
  protocol. Its trace theorems prove that every index commits at most once, that the history
  and the note change only by appending, and that a buffered payload is handed on at most once.
- **Session store and repositories** (modules `Store`, `Conversation`, `Buffer`, `Documents`,
  `Notification`, `Metrics`, `Session`, and `LegacySession` for the older monolithic service).
  The Redis store is an in-memory map from session id to a record with one field per key family
  (`session:{id}:*`). Each repository is a class over that store, and each method states its
  whole effect on the store and that every other session is unchanged (for clearing a session,
  on the assumption stated under "## Left out").
- **Decision and formatting logic around the sequencer**: the LLM handler's adapter routing and
  output parsing, role assignment, word-level confidence tagging in the transcriber, drug
  dosage checks, the two guardrail services, feedback routing and edit metrics, the request
  schemas, the prompt registry and the stop-sequence setting.
- **Offline data pipeline**: context/target splitting of note items, log parsing and
  unrolling one record per chunk, the runner's length filter, text normalisation, chat message
  assembly, the quality-check pass/quarantine split, exact and same-patient/same-day
  de-duplication, the `YYYY-MM-DD` prefix of a timestamp (the extended complete calendar-date
  form of ISO 8601:2004 section 4.1.2.2) and the de-duplication path layout.

Collaborators that the code calls but that are not part of this model (speech recognition,
the role LLM, the medical NER and NLI models, the scribe LLM, the clock, hashing) are
parameters of the model.

## Model

| member | source | states |
|---|---|---|
| Store.Redis.constructor | backend/core/redis_client_sync.py:1-59 | a fresh store holds no session keys |
| Buffer.BufferServiceSync.constructor | backend/repositories/buffer.py:14-15 | the service keeps the store it is given |
| Buffer.BufferServiceSync.SaveChunk | backend/repositories/buffer.py:17-28 | the payload is stored under the session and chunk index, replacing any earlier payload (upsert); every other index and every other session is unchanged |
| Buffer.BufferServiceSync.GetChunk | backend/repositories/buffer.py:30-41 | returns the payload stored for that index, and None exactly when no payload is stored |
| Buffer.BufferServiceSync.DelChunk | backend/repositories/buffer.py:43-49 | removes that index only; every other index and every other session is unchanged |
| Conversation.ConversationRepositorySync.constructor | backend/repositories/conversation.py:30-31 | the repository keeps the store it is given |
| Conversation.ConversationRepositorySync.AddDialogueTurns | backend/repositories/conversation.py:33-49 | an empty list writes nothing; otherwise the history becomes the old history followed by the turns, in order, and nothing else changes |
| Conversation.ConversationRepositorySync.GetDialogueHistory | backend/repositories/conversation.py:51-61 | returns the whole history in append order |
| Conversation.ConversationRepositorySync.AddUiSegments | backend/repositories/conversation.py:63-78 | an empty list writes nothing; otherwise the UI list grows by the segments, and the dialogue history is untouched |
| Conversation.ConversationRepositorySync.GetExpectedChunkIndex | backend/repositories/conversation.py:80-92 | returns the stored expected index, which is 0 for a session with nothing stored |
| Conversation.ConversationRepositorySync.IncrementExpectedChunkIndex | backend/repositories/conversation.py:94-103 | returns the previous expected index plus one, which later reads see; the ticket counter and everything else are unchanged |
| Conversation.ConversationRepositoryAsync.constructor | backend/repositories/conversation.py:110-111 | the repository keeps the store it is given |
| Conversation.ConversationRepositoryAsync.GetDialogueHistory | backend/repositories/conversation.py:113-123 | returns the whole history in append order |
| Conversation.ConversationRepositoryAsync.GetUiSegments | backend/repositories/conversation.py:125-135 | returns the UI segment list in append order |
| Conversation.ConversationRepositoryAsync.GetNextChunkIndex | backend/repositories/conversation.py:137-152 | returns the number of tickets issued before this call and counts one more; the expected index is a different key and does not move |
| Documents.DocumentServiceSync.constructor | backend/repositories/documents.py:44-45 | the service keeps the store it is given |
| Documents.DocumentServiceSync.UpdateSoapNote | backend/repositories/documents.py:47-54 | the stored note becomes exactly the given note (overwrite, no merge); nothing else changes |
| Documents.DocumentServiceSync.GetSoapNote | backend/repositories/documents.py:56-66 | returns the last stored note, and None for a session that never stored one |
| Documents.DocumentServiceSync.SaveTextDraft | backend/repositories/documents.py:68-73 | only the draft of that task type changes; the note and the drafts of other task types are untouched |
| Documents.DocumentServiceAsync.constructor | backend/repositories/documents.py:16-17 | the service keeps the store it is given |
| Documents.DocumentServiceAsync.GetSoapNote | backend/repositories/documents.py:19-29 | returns the stored note, or None |
| Documents.DocumentServiceAsync.GetTextDraft | backend/repositories/documents.py:31-36 | returns the last draft saved for that task type, and None exactly when none was saved |
| Document.Empty | backend/services/llm_handler.py:275-278 | the empty note has all four sections empty |
| Document.NoteExtensionality | backend/services/llm_handler.py:261-273 | two notes are equal exactly when their four sections are |
| Document.Merge | backend/tasks/ingest.py:160-168 | merging a delta appends the delta's items to every section, in order |
| Document.MergeIdentity | backend/tasks/ingest.py:160-168 | the empty note is a left and a right identity of merging |
| Document.MergeAssociative | backend/tasks/ingest.py:160-168 | merging is associative, so merging deltas one by one equals merging their combination |
| Document.MergeExtends | backend/tasks/ingest.py:160-168 | merging never edits or removes an item already in the note |
| Document.MergeAllSections | backend/tasks/ingest.py:160-168 | each section after folding a run of deltas is the start section followed by every delta's items, in delta order |
| Document.MergeAllAppend | backend/tasks/ingest.py:160-168 | folding two runs of deltas one after the other equals folding their concatenation |
| Document.MergeKeepsChunkOrder | backend/tasks/ingest.py:160-168 | merging the delta of chunk k into a note built from earlier chunks keeps every section ordered by source chunk index |
| Notification.Pinpoint | backend/repositories/notification.py:41-51 | a read for one chunk gives at most one entry, present exactly when that chunk's field is stored and parses, and it is that chunk's entry |
| Notification.ReadAll | backend/repositories/notification.py:53-65 | a read of the whole hash gives one entry per stored field that parses, each the value of a distinct field, and skips fields that do not parse |
| Notification.NotificationServiceSync.constructor | backend/repositories/notification.py:112-114 | the service keeps the store it is given |
| Notification.NotificationServiceSync.AddWarning | backend/repositories/notification.py:116-139 | an empty list writes nothing; otherwise the warnings hash gains or overwrites the field of this chunk with `{chunk_index, timestamp, warnings}`, and the safety hash and other sessions are untouched |
| Notification.NotificationServiceSync.AddSafetyAlert | backend/repositories/notification.py:141-161 | the same for the separate safety hash, leaving the warnings hash untouched |
| Notification.NotificationServiceAsync.constructor | backend/repositories/notification.py:22-23 | the service keeps the store it is given |
| Notification.NotificationServiceAsync.GetWarnings | backend/repositories/notification.py:25-70 | with an index, at most that chunk's entry; without one, exactly one entry per readable stored chunk; the method changes nothing, so two reads agree |
| Notification.NotificationServiceAsync.GetSafetyAlerts | backend/repositories/notification.py:72-105 | the same for safety alerts; an index with no stored entry gives [] |
| Metrics.HIncr | backend/repositories/metrics.py:35-47 | incrementing a field adds the amount to that field's total and leaves every other field as it was |
| Metrics.ParseRedisValue | backend/repositories/metrics.py:62-69 | an integral number becomes an int of the same value, another number stays a float, and text that is not a number is returned unchanged |
| Metrics.MetricsServiceSync.constructor | backend/repositories/metrics.py:16-18 | the service keeps the store it is given |
| Metrics.MetricsServiceSync.UpdateMetrics | backend/repositories/metrics.py:20-52 | a falsy argument, or a single value without a field name, changes nothing; each non-zero dict entry is added to its own field and zero entries are skipped; a single value with a field name adds to that field only |
| Metrics.FeedbackStatsCounters | backend/repositories/metrics.py:84-107 | `feedback_indc` always grows by one; `accept` and `reject` each move only their own counter; `edit` with both metrics moves `edit_count` and both totals, and without both only the indicator moves |
| Metrics.MetricsServiceAsync.constructor | backend/repositories/metrics.py:59-60 | the service keeps the store it is given |
| Metrics.MetricsServiceAsync.GetMetrics | backend/repositories/metrics.py:71-82 | one entry per stored field, each converted by `_parse_redis_value` |
| Metrics.MetricsServiceAsync.UpdateFeedbackStats | backend/repositories/metrics.py:84-107 | the session's counters become the feedback-stats update of the old counters; nothing else changes |
| Session.HashMrn | backend/repositories/session.py:12-14 | the hash is 32 hexadecimal digits, a prefix of the SHA-256 digest, so it depends only on the record number |
| Session.SessionMetadata | backend/repositories/session.py:32-38 | the metadata holds exactly `doctor_id`, `patient_id` and `session_start` with the given values |
| Session.SessionRepositoryAsync.constructor | backend/repositories/session.py:22-23 | the repository keeps the store it is given |
| Session.SessionRepositoryAsync.CreateSession | backend/repositories/session.py:25-41 | returns the session id it was given, and the metadata gains the three fields with `patient_id` the hash of the record number |
| Session.SessionRepositoryAsync.GetSessionMetadata | backend/repositories/session.py:43-54 | None exactly when the session has no metadata, otherwise the stored metadata |
| Session.SessionRepositoryAsync.ClearSession | backend/repositories/session.py:56-69 | every key of the session is gone, so it reads as a fresh session, and no other session's keys change |
| LegacySession.ToInt | backend/services/session_service.py:157 | `int()` of a stored total succeeds exactly when the total is a whole number, and then gives that number |
| LegacySession.SessionService.constructor | backend/services/session_service.py:18-22 | the service keeps the store it uses |
| LegacySession.SessionService.AddDialogueTurns | backend/services/session_service.py:24-41 | an empty list writes nothing; otherwise the turns are appended to the history in order, and nothing else changes |
| LegacySession.SessionService.GetDialogueHistory | backend/services/session_service.py:43-54 | returns the whole history in append order |
| LegacySession.SessionService.AddUiSegments | backend/services/session_service.py:56-71 | an empty list writes nothing; otherwise the segments are appended to the UI list and the history is untouched |
| LegacySession.SessionService.GetUiSegments | backend/services/session_service.py:73-84 | returns the UI segment list in append order |
| LegacySession.SessionService.UpdateSoapNote | backend/services/session_service.py:86-94 | the stored note becomes exactly the given note (overwrite) |
| LegacySession.SessionService.GetSoapNote | backend/services/session_service.py:96-107 | returns the stored note, or None when nothing is stored |
| LegacySession.SessionService.UpdateMetrics | backend/services/session_service.py:110-143 | the same three cases as the repository: falsy or unnamed single values change nothing; non-zero dict entries add to their fields, and a field exists afterwards exactly when it existed before or its entry is non-zero, so an all-zero dict creates no field; a named single value adds to its field |
| LegacySession.SessionService.GetMetrics | backend/services/session_service.py:145-157 | succeeds exactly when every stored total is a whole number, and then returns every field as that integer |
| LegacySession.SessionService.SaveTextDraft | backend/services/session_service.py:159-166 | only that task type's draft changes |
| LegacySession.SessionService.GetTextDraft | backend/services/session_service.py:168-174 | the last draft saved for that task type, and None exactly when none was saved |
| LegacySession.SessionService.UpdateFeedbackStats | backend/services/session_service.py:176-200 | `feedback_indc` always grows, then exactly the action's counter; edit totals only when both metrics are present |
| LegacySession.SessionService.GetNextChunkIndex | backend/services/session_service.py:202-217 | returns the number of earlier calls for the session and counts one more |
| LegacySession.SessionService.AddWarning | backend/services/session_service.py:219-243 | an empty list writes nothing; otherwise the chunk's warning field is written or overwritten |
| LegacySession.SessionService.GetWarnings | backend/services/session_service.py:245-291 | with an index, at most that chunk's entry; without one, every readable entry once; nothing is deleted |
| LegacySession.SessionService.AddSafetyAlert | backend/services/session_service.py:293-316 | an empty list writes nothing; otherwise the chunk's alert field is written or overwritten in the safety hash |
| LegacySession.SessionService.GetSafetyAlerts | backend/services/session_service.py:318-351 | the same as warnings, for the safety hash |
| LegacySession.SessionService.ClearSession | backend/services/session_service.py:353-369 | every `session:{id}:*` key is removed, so the session reads as fresh, and no other session changes |
| Ingest.Relabel | backend/tasks/ingest.py:122-126 | one UI segment per input segment; the segment at position i takes the role of tagged turn i when there is one and is otherwise unchanged |
| Ingest.ParsedScribeStamps | backend/services/llm_handler.py:259-273 | a scribe that parses the model's answer for chunk k stamps every delta item with k |
| Ingest.RelabelSegments | backend/tasks/ingest.py:122-126 | the relabelling loop computes `Relabel` |
| Ingest.Worker.constructor | backend/tasks/ingest.py:52-58 | the worker builds its five repositories over one store and has sent nothing |
| Ingest.Worker.ProcessAudioChunk | backend/tasks/ingest.py:35-280 | the session changes as `Ingest.Process` says (early: parked, late: skipped, on turn: pipeline, error: retry, give up, or crash when giving up raises), the jobs sent are the ones it says, and no other session changes |
| Ingest.Worker.RunPipeline | backend/tasks/ingest.py:99-238 | the on-turn pipeline changes the session and sends jobs as `Ingest.OnTurn` says |
| Ingest.Worker.Save | backend/tasks/ingest.py:132-135 | the UI segments and the masked turns are appended, and the rest of the run follows, as `Ingest.Persist` says |
| Ingest.Worker.WriteNote | backend/tasks/ingest.py:137-174 | the history read back, the generation (which adds its non-zero duration to `total_latency_ms`, with llm_handler.py lines 219-221), the generated delta and the note write change the session as `Ingest.Compose` says |
| Ingest.Worker.Notify | backend/tasks/ingest.py:176-183 | the quality-check warnings are stored only when there are some, and the rest of the run follows, as `Ingest.Finish` says |
| Ingest.Worker.CheckSafety | backend/tasks/ingest.py:185-197 | the safety alerts of the delta's plan are stored only when there are some, as `Ingest.Caution` says |
| Ingest.Worker.Complete | backend/tasks/ingest.py:199-204 | the last-chunk latency step as `Ingest.Wrap` says |
| Ingest.Worker.RecordLatency | backend/tasks/ingest.py:202-204 | the last chunk adds its latency to `final_e2e_latency_ms` and nothing else changes |
| Ingest.Worker.RecordGeneration | backend/services/llm_handler.py:219-221 | a non-zero generation time is added to `total_latency_ms` on every call; a zero one writes nothing; nothing else changes |
| Ingest.Worker.Increment | backend/tasks/ingest.py:206-217 | file removal and the increment as `Ingest.Settle` says |
| Ingest.Worker.Replay | backend/tasks/ingest.py:219-238 | with no payload buffered at the new expected index the run succeeds and changes nothing more; otherwise the hand-off follows, as `Ingest.Drain` says |
| Ingest.Worker.HandOff | backend/tasks/ingest.py:221-232 | the buffered payload is deleted and sent once, without `current_note`, as `Ingest.Resend` says |
| Ingest.Worker.Fail | backend/tasks/ingest.py:244-280 | the error branch as `Ingest.Recover` says: a retryable error with retries left asks for a retry and changes nothing, any other error advances the index once and reports `failed`, unless that increment raises in its turn, which ends the Celery task with the index unmoved |
| IngestFacts.DrainHandled | backend/tasks/ingest.py:219-280 | an exception during the hand-off is handled by the error policy (retry exactly for a transient error with retries left, otherwise `failed` with the job's index, nothing re-sent) (lines 219-232 and 244-280) |
| IngestFacts.SettleHandled | backend/tasks/ingest.py:206-280 | the same for the increment step, counting the increment already made (lines 206-217 and 244-280) |
| IngestFacts.WrapHandled | backend/tasks/ingest.py:199-280 | the same for the last-chunk latency step (lines 199-204 and 244-280) |
| IngestFacts.RecoverHandled | backend/tasks/ingest.py:244-280 | a recovery from a state whose expected index is still the job's own follows the error policy with no earlier increment |
| IngestFacts.FinishHandled | backend/tasks/ingest.py:176-280 | the same for the notification steps (lines 176-197 and 244-280) |
| IngestFacts.PersistHandled | backend/tasks/ingest.py:128-280 | the same for the history, generation and note steps (lines 128-174 and 244-280) |
| IngestFacts.OnTurnHandled | backend/tasks/ingest.py:99-280 | the same for the whole on-turn pipeline (lines 99-238 and 244-280) |
| IngestFacts.ProcessHandled | backend/tasks/ingest.py:35-280 | for a whole delivery: a retry exactly for a transient error with fewer than three retries, otherwise `failed` with `handled` and the job's index; nothing re-sent; the expected index advanced once for a failure, plus once more when the exception came after the increment (lines 35-50 and 244-280) |
| IngestFacts.ProcessEarly | backend/tasks/ingest.py:76-89 | an early job is parked under its own index as `{file_path, session_id, chunk_index, is_last_chunk}`, returns `buffered`, and nothing else changes |
| IngestFacts.ProcessLate | backend/tasks/ingest.py:91-94 | a late job returns `skipped` and changes nothing |
| IngestFacts.ProcessSilence | backend/tasks/ingest.py:109-116 | with the intended `ScribeResponse`, a job on turn with no speech returns the incoming note and changes nothing: no history, no note, no increment (as written the response raises; see "## Left out") |
| IngestFacts.SettleReachesDrain | backend/tasks/ingest.py:206-220 | without an exception before it, the increment step raises the expected index by one and reaches the hand-off |
| IngestFacts.WrapReachesDrain | backend/tasks/ingest.py:199-220 | the same from the last-chunk latency step |
| IngestFacts.FinishReachesDrain | backend/tasks/ingest.py:176-220 | the same from the notification steps |
| IngestFacts.ComposeReachesDrain | backend/tasks/ingest.py:137-220 | without an exception before the increment, the generation time (llm_handler.py lines 219-221) and the merged note are written, then the notifications, latency and increment, before the hand-off |
| IngestFacts.PersistReachesDrain | backend/tasks/ingest.py:128-220 | the writes of a turn all land before the hand-off: transcript, history, the generation time in `total_latency_ms` (llm_handler.py lines 219-221), the merged note, the notifications, the last chunk's latency and the increment |
| IngestFacts.OnTurnReachesDrain | backend/tasks/ingest.py:99-220 | the same from the start of the on-turn pipeline, for a chunk with speech, including the generation time added to `total_latency_ms` |
| IngestFacts.ProcessSucceeds | backend/tasks/ingest.py:118-238 | a job on turn with speech and no exception: history gains exactly the masked turns in order; the note stored is the note argument merged with the delta; warnings and alerts (plan texts joined by ", ") are stored under the job's index when non-empty; the metrics gain the non-zero generation time in `total_latency_ms` (llm_handler.py lines 219-221) and, for the last chunk, the latency in `final_e2e_latency_ms`; the index moves by one; the payload buffered at the new index is removed and sent once; the outcome is `success` with the job's index |
| IngestFacts.NotifiedOnlyNonEmpty | backend/tasks/ingest.py:181-197 | a notification hash gains the entry for chunk k exactly when there are messages, and no other entry changes |
| IngestFacts.SilenceStrandsSuccessor | backend/tasks/ingest.py:109-216 | with the intended `ScribeResponse`, after a silent chunk the index has not moved, so the next chunk is only parked and nothing will ever re-send it (Findings; lines 109-116 and 216; the as-written response is under "## Left out") |
| IngestFacts.TerminalFailureStrands | backend/tasks/ingest.py:264-279 | a terminal failure advances the index but leaves the buffered successor in place, never re-sent (Findings) |
| IngestFacts.FailedAdvanceStalls | backend/tasks/ingest.py:264-267 | when the failure branch's own increment raises, the Celery task ends with the store untouched: the job on turn is never settled and the expected index stays where it was |
| IngestFacts.EarlyFailureSkipsTurn | backend/tasks/ingest.py:77-279 | an early job that fails to park itself advances the index past the job on turn, which is then skipped (Findings) (lines 77-89 and 264-279) |
| IngestFacts.LateFailureAdvancesTwice | backend/tasks/ingest.py:216-267 | an exception after the increment advances the index a second time (Findings) (lines 216-223 and 264-267) |
| IngestFacts.ProcessIgnoresStoredNote | backend/tasks/ingest.py:36-171 | the stored note plays no part in what a run stores: it is built from the `current_note` argument (Findings) (lines 36, 61-63 and 160-171) |
| IngestFacts.HandedOffJobFails | backend/tasks/ingest.py:224-232 | the job re-sent after a success has no `current_note`, so its own run fails on the call and changes nothing (Findings) |
| IngestFacts.HistoryFaultKeepsTurns | backend/tasks/ingest.py:134-259 | a transient failure reading the history back leaves the appended turns in place and asks for a retry (lines 134-138 and 253-259) |
| IngestFacts.RetryDuplicatesHistory | backend/tasks/ingest.py:134-259 | the retried run then appends the chunk's turns a second time (Findings) (lines 134-138 and 253-259) |
| IngestProtocol.TurnStamped | backend/services/llm_handler.py:259-273 | with a stamping scribe, every delta item a turn extracts carries the delivery's own chunk index |
| IngestProtocol.WrittenFrame | backend/tasks/ingest.py:77-197 | the writes of a delivery leave the expected index alone and change the buffer only by parking an early payload (lines 77-89 and 128-197) |
| IngestProtocol.StepAdvance | backend/tasks/ingest.py:77-267 | in the corrected protocol the expected index moves by one exactly when the delivery is the job on turn and it settles (success, silence or terminal failure); otherwise it stays (lines 77-94 and 216 and 267) |
| IngestProtocol.FreshInv | backend/repositories/conversation.py:80-92 | a session nobody has written to satisfies the sequencing invariant (buffer filed above the expected index, note ordered below it) |
| IngestProtocol.OrderedBelowRaise | backend/tasks/ingest.py:160-168 | a note ordered below index b is ordered below b + 1 |
| IngestProtocol.WrittenOrdered | backend/tasks/ingest.py:160-171 | the note a turn with speech stores is the stored note merged with the delta, ordered below the next index; any other delivery leaves the note alone |
| IngestProtocol.StepKeepsBuffer | backend/tasks/ingest.py:77-232 | every delivery keeps nothing buffered at or below the expected index (lines 77-89 and 219-232) |
| IngestProtocol.StepKeepsNote | backend/tasks/ingest.py:160-171 | every delivery keeps the stored note ordered by chunk below the expected index |
| IngestProtocol.StepKeepsInv | backend/tasks/ingest.py:35-280 | every delivery keeps the whole sequencing invariant |
| IngestProtocol.StepSends | backend/tasks/ingest.py:219-232 | a delivery sends at most one payload, the one filed under the new expected index, which then leaves the buffer |
| IngestProtocol.StepHistory | backend/tasks/ingest.py:130-135 | history changes only by appending the masked turns of a successful turn |
| IngestProtocol.StepNoteGrows | backend/tasks/ingest.py:160-171 | the stored note only grows: an existing note stays a prefix, section by section |
| IngestProtocol.TurnOfStamps | backend/services/llm_handler.py:259-273 | the worker's own turn computation stamps every delta item with the delivery's index |
| IngestProtocol.SettledConsecutive | backend/tasks/ingest.py:216-267 | over any run, the settled indices are exactly the consecutive indices from the starting expected index to the final one (lines 216 and 267) |
| IngestProtocol.SettledOnce | backend/tasks/ingest.py:216-267 | at most one commit per index over any run (lines 216 and 267) |
| IngestProtocol.DeliverKeepsInv | backend/tasks/ingest.py:219-232 | the invariant holds after any run, and the payloads sent carry strictly increasing indices above the start, so a buffered index is replayed at most once |
| IngestProtocol.DeliverGrows | backend/tasks/ingest.py:130-171 | over any run the history only grows by appending and the note only by extending |
| IngestProtocol.FailureHandsOff | backend/tasks/ingest.py:264-279 | in the corrected protocol a terminal failure on turn settles the turn and sends the buffered successor |
| IngestProtocol.SilenceAdvances | backend/tasks/ingest.py:109-116 | in the corrected protocol a silent chunk settles its turn and hands off, writing no history or note |
| IngestProtocol.StepMergesStoredNote | backend/tasks/ingest.py:160-171 | in the corrected protocol the stored note, not the `current_note` argument, is extended by the delta |
| IngestProtocol.RetryIsClean | backend/tasks/ingest.py:253-259 | in the corrected protocol a retry starts from exactly the state before the failed attempt |
| IngestProtocol.HandOffIsOnTurn | backend/tasks/ingest.py:219-232 | the payload sent is exactly on turn in the state it leaves, so its delivery succeeds when it meets no fault and holds speech |
| LlmHandler.LoraIdMap | backend/services/llm_handler.py:77-80 | the configured adapters get distinct ids 1..n in declaration order, and only they are in the map |
| LlmHandler.AdapterKey | backend/services/llm_handler.py:161 | the adapter key is `soap` whenever the `task_type` contains `soap`, and otherwise the `task_type` itself |
| LlmHandler.SoapVariantsShareAdapter | backend/services/llm_handler.py:161 | every task whose name starts with `soap`, such as `soap_final`, routes to the `soap` adapter |
| LlmHandler.RouteLora | backend/services/llm_handler.py:158-172 | a LoRA request is built exactly when LoRA is enabled, the adapter has a non-empty path and the key is in the id map, and it carries that key, id and path |
| LlmHandler.RouteConfiguredAdapter | backend/services/llm_handler.py:77-172 | with the id map built from the configured adapters, every configured adapter with a path is routed with an id of at least 1 (lines 77-80 and 161-172) |
| LlmHandler.ScribeMessages | backend/services/llm_handler.py:176-208 | the request has the system prompt of its `task_type` first, one user message `ROLE: content` per history turn in order, and the suffix prompt built around the note context last |
| LlmHandler.CleanFencedJson | backend/services/llm_handler.py:250-254 | a ```json fenced answer yields exactly the text between the fences, without the `json` tag |
| LlmHandler.FencedText | backend/services/llm_handler.py:250-254 | a fenced answer yields the text between the first pair of fences, with a leading `json` removed |
| LlmHandler.JsonTagDropped | backend/services/llm_handler.py:253-254 | a leading `json` is removed and nothing else |
| LlmHandler.FencedPiece | backend/services/llm_handler.py:250-252 | a fenced answer strips to itself, contains a fence, and its second piece is the inside |
| LlmHandler.FencedStripped | backend/services/llm_handler.py:250 | stripping leaves a fenced answer unchanged |
| LlmHandler.FencedSecond | backend/services/llm_handler.py:251-252 | the piece after the opening fence is the inside, up to the closing fence |
| LlmHandler.SectionItems | backend/services/llm_handler.py:262-271 | one item per string element, every item stamped with the chunk index, non-string elements dropped |
| LlmHandler.SectionItemsAppend | backend/services/llm_handler.py:264-270 | the items of a longer list extend the items of its prefix, so element order is kept |
| LlmHandler.SectionItemsSnoc | backend/services/llm_handler.py:264-270 | one more element adds its item at the end when it is a string, and nothing otherwise |
| LlmHandler.NoteFromJson | backend/services/llm_handler.py:257-273 | building succeeds exactly for an object whose four sections can be iterated, and every item is stamped with the chunk index |
| LlmHandler.MissingSectionEmpty | backend/services/llm_handler.py:262 | a section the answer leaves out becomes an empty list |
| LlmHandler.NoteOf | backend/services/llm_handler.py:257-278 | a failed decode gives the empty note, and any note it gives is stamped with the chunk index |
| LlmHandler.ParseOutput | backend/services/llm_handler.py:242-281 | a task other than `soap` returns the raw text; `soap` returns the parsed note, which is the empty note when anything fails |
| LlmHandler.BuildNote | backend/services/llm_handler.py:259-278 | the section-copying loop computes `NoteOf` of the decoded answer |
| LlmHandler.CollectSection | backend/services/llm_handler.py:262-271 | the inner loop computes `SectionItems` |
| LlmHandler.NotIterableGivesEmpty | backend/services/llm_handler.py:264-278 | a section that cannot be iterated makes the whole result the empty note instead of raising |
| LlmHandler.SectionOrderCovers | backend/services/llm_handler.py:261 | the loop over the four section names covers every section |
| LlmHandler.ObjectGivesNote | backend/services/llm_handler.py:261-273 | when every section iterates, the note holds each section's string items in order |
| RoleService.UnfenceJsonBlock | backend/services/role_service.py:74-76 | an answer in a ```json fence yields the stripped body |
| RoleService.NoJsonFence | backend/services/role_service.py:75-76 | a backtick-free body followed by one fence holds no ```json marker |
| RoleService.RolesFromAnswer | backend/services/role_service.py:54-86 | a failed call or an answer that does not decode gives the empty map; otherwise the keys are converted to ints |
| RoleService.AssignRoles | backend/services/role_service.py:26-52 | one output turn per input turn, in order; turn i keeps its content and gets `role_map[i]`, or `Unknown` when i is missing; an empty conversation gives [] |
| RoleService.FailedTaggingIsUnknown | backend/services/role_service.py:46-86 | with the empty map every role becomes `Unknown` (lines 84-86 and 46) |
| RoleService.IntKeyedDefined | backend/services/role_service.py:82 | converting the answer's keys succeeds exactly when every key is an integer literal |
| RoleService.IntKeyedLastWins | backend/services/role_service.py:82 | when it succeeds, each position gets the role of the last field whose key converts to it, as a dict comprehension overwrites earlier entries |
| RoleService.PositionalAnswer | backend/services/role_service.py:42-86 | an answer `{"0": r0, "1": r1, ...}` naming one role per position tags turn i with ri and keeps its content, for any number of turns (the shape backend/tests/services/test_role_service.py lines 20-25 and 68-72 check on four turns) |
| Transcriber.HundredthsNearest | backend/services/transcriber.py:133 | the rounded confidence is the number of hundredths nearest the score |
| Transcriber.HundredthsMonotone | backend/services/transcriber.py:133 | rounding keeps the order of scores |
| Transcriber.HundredthsRange | backend/services/transcriber.py:133 | a score between 0 and 1 rounds to between 0 and 100 hundredths |
| Transcriber.UnclearMonotone | backend/services/transcriber.py:147 | a word unclear at some confidence is unclear at every lower confidence and every higher threshold |
| Transcriber.MapEachStep | backend/services/transcriber.py:129-151 | one more word in the loop adds exactly its own image at the end |
| Transcriber.MapEachAt | backend/services/transcriber.py:129-151 | one image per word, each at the word's own position |
| Transcriber.WordsAt | backend/services/transcriber.py:129-151 | each word gives exactly one UI entry and one LLM piece, at its own position |
| Transcriber.FormatWord | backend/services/transcriber.py:130-151 | one word gives the UI entry `{word, start, end, confidence}` with the rounded score, and the stripped word, as `(unclear: w)` when the confidence is below the threshold |
| Transcriber.SegmentWords | backend/services/transcriber.py:124-154 | the word loop builds exactly the segment's UI words and the pieces whose space-join is the segment sentence; a segment without `words` gives empty content |
| Transcriber.FormatResponse | backend/services/transcriber.py:111-177 | one dialogue turn and one UI segment per input segment, in order, as the specification functions say |
| Transcriber.OutputsAligned | backend/services/transcriber.py:120-172 | as many turns as UI segments as input segments; each turn's content equals its UI segment's text, and its role is the segment's speaker, `UNKNOWN` when it has none |
| Transcriber.EveryWordKept | backend/services/transcriber.py:129-151 | every word reaches both outputs: the UI word keeps the original text and the rounded confidence, and its piece is tagged exactly when that confidence is below the threshold |
| Transcriber.SentenceSplitsIntoWords | backend/services/transcriber.py:146-154 | when every word is clear and has no inner space, the sentence splits on spaces back into the stripped words |
| Transcriber.JoinedPiecesSplit | backend/services/transcriber.py:154 | joining space-free pieces by single spaces and splitting again gives the pieces |
| Transcriber.SplitAppend | backend/services/transcriber.py:154 | splitting `a + " " + b` with a space-free `a` puts `a` before the pieces of `b` |
| Safety.DigitRun | backend/services/safety.py:149 | the `\d+` run at a position: all digits, inside the text |
| Safety.DigitRunIs | backend/services/safety.py:149 | a maximal run of k digits has length k |
| Safety.SearchSkips | backend/services/safety.py:149 | `re.search` passes over a stretch without digits |
| Safety.NoDigitNoDosage | backend/services/safety.py:103-156 | text without a digit holds no dosage, the `ValueError` path ("two tablets") (lines 143-156 and 103-105) |
| Safety.MatchDigits | backend/services/safety.py:149 | digits, optional whitespace and `mg` or `g` from a position give a match there |
| Safety.LoweredLayout | backend/services/safety.py:149 | lower-casing keeps the layout of digits, whitespace and unit |
| Safety.ParseRendered | backend/services/safety.py:143-156 | after text without digits, a number, any whitespace and a unit parse back as that number and unit, whatever follows |
| Safety.SearchDigits | backend/services/safety.py:149-154 | after text without digits, the search finds the first digits followed by a unit |
| Safety.ClosestIndex | backend/services/safety.py:121-141 | the scan's choice, when there is one, is an index of the dosage list |
| Safety.FindClosestDosage | backend/services/safety.py:116-141 | the loop returns the dosage the scan settles on: none for an empty list, otherwise the strictly nearest one under 50 characters, the earliest on a tie |
| Safety.ClosestIsNearest | backend/services/safety.py:121-141 | nothing is linked exactly when every dosage is 50 or more characters away by centre; otherwise the linked dosage is within 50, no further than any other within 50, and strictly nearer than every earlier one |
| Safety.AlertsStep | backend/services/safety.py:74-105 | one more drug adds its own warning, if any, at the end |
| Safety.TextsSnoc | backend/services/safety.py:99-102 | one more alert adds its own text at the end |
| Safety.SeparateEntities | backend/services/safety.py:58-70 | drugs are the `Medication` entities and dosages the `Dosage` entities, each in order; other labels are dropped |
| Safety.AlertForIs | backend/services/safety.py:85-102 | a known drug whose linked dosage parses is flagged exactly when the amount in milligrams is strictly over its limit |
| Safety.CheckDrug | backend/services/safety.py:75-105 | the body of the drug loop gives that drug's warning text, if any |
| Safety.DetectRuleViolations | backend/services/safety.py:44-107 | no NER pipeline gives []; otherwise the warnings of every known drug whose linked dosage is over the limit, in drug order |
| Safety.AlertForGrounded | backend/services/safety.py:78-102 | an alert is raised only for a known drug, with its limit from the knowledge graph and an amount above it |
| Safety.AlertsByFrom | backend/services/safety.py:74-105 | over a run of drugs, at most one alert per drug, each the per-drug check's alert for one of them |
| Safety.AlertsGrounded | backend/services/safety.py:74-105 | every alert of the service comes from a drug of the input and is grounded in it; at most one per drug |
| Safety.UnknownDrugsIgnored | backend/services/safety.py:78-80 | drugs absent from the knowledge graph never raise an alert ("UnknownDrug 9000mg") (with backend/tests/services/test_safety.py lines 57-62) |
| Safety.FarDosageIgnored | backend/services/safety.py:137 | a drug with no dosage within 50 characters raises no alert, whatever the dose (with backend/tests/services/test_safety.py lines 49-55) |
| Safety.LinkedAlert | backend/services/safety.py:83-102 | with a single dosage within the link distance, that dosage is linked and parsed |
| Safety.AlertIffAboveLimit | backend/services/safety.py:95-102 | for a known drug whose only nearby dosage reads `<n> mg` or `<n> g`, the alert fires exactly when the milligram amount is strictly above the limit (with backend/tests/services/test_safety.py lines 21-40) |
| Safety.GramsAsMilligrams | backend/services/safety.py:92-93 | `<n>g` and `<1000 n>mg` give the same alert |
| GuardrailService.TagAt | backend/services/guardrail_service.py:108 | a tag match starting at a position ends after it and inside the text |
| GuardrailService.CleanSummary | backend/services/guardrail_service.py:94-113 | text is returned as it is; a mapping gives its list items with tags removed and its strings, in order, joined by `". "`; other values are skipped |
| GuardrailService.NoParenUnchanged | backend/services/guardrail_service.py:108 | text without `(` is left as it is by the tag removal |
| GuardrailService.RemoveTagsShrinks | backend/services/guardrail_service.py:108 | removing tags never lengthens the text |
| GuardrailService.NoTagInside | backend/services/guardrail_service.py:108 | no tag starts inside a parenthesis-free stretch that does not end in whitespace |
| GuardrailService.SpaceRunStops | backend/services/guardrail_service.py:108 | the `\s*` run stops at the first non-space |
| GuardrailService.CopiesUntil | backend/services/guardrail_service.py:108 | a stretch where no tag starts is copied unchanged |
| GuardrailService.CopiesOne | backend/services/guardrail_service.py:108 | a character where no tag starts is copied |
| GuardrailService.TrailingTagRemoved | backend/services/guardrail_service.py:107-108 | a trailing `(Updated)` or `(Correction)` in any case, with the whitespace before it, is removed: `Headache (Updated)` becomes `Headache` |
| GuardrailService.PrefixCopied | backend/services/guardrail_service.py:108 | a parenthesis-free prefix not ending in whitespace is copied unchanged |
| GuardrailService.TagRestAtEnd | backend/services/guardrail_service.py:108 | whitespace and a tag that run to the end of the text are removed as one match |
| GuardrailService.TailLayout | backend/services/guardrail_service.py:108 | where the whitespace, the parenthesis and the tag word sit in the text |
| GuardrailService.TagMatches | backend/services/guardrail_service.py:108 | whitespace, `(`, a tag word in any case and `)` form one match |
| GuardrailService.CollectMembers | backend/services/guardrail_service.py:155-159 | the collected set holds exactly the keys of the kept items |
| GuardrailService.EntitiesMembers | backend/services/guardrail_service.py:137-160 | a word is an entity exactly when some item has a target label and that stripped, lower-cased word, longer than two characters |
| GuardrailService.GetMedicalEntities | backend/services/guardrail_service.py:137-160 | the loop collects exactly the entity set |
| GuardrailService.FlagEach | backend/services/guardrail_service.py:167-168 | one `Unverified entity` warning per unsupported entity: as many warnings as entities, no two alike, each the wrapping of one of them |
| GuardrailService.WrappedInjective | backend/services/guardrail_service.py:168 | equal warnings come from equal entity words |
| GuardrailService.CheckMedicalNer | backend/services/guardrail_service.py:115-182 | an empty transcript or summary gives no warning and zero counts; otherwise one warning per summary entity missing from the transcript, and the four counts of the entity sets |
| GuardrailService.MetricsAddUp | backend/services/guardrail_service.py:164-180 | matched and hallucinated counts add up to the summary count, and neither exceeds it |
| GuardrailService.SubsetCard | backend/services/guardrail_service.py:176-180 | a subset is no larger than its superset |
| GuardrailService.ArgMax | backend/services/guardrail_service.py:204 | the chosen label index is 0, 1 or 2 |
| GuardrailService.NliStep | backend/services/guardrail_service.py:203-211 | one more sentence adds its own warning, if any, at the end |
| GuardrailService.CheckMedicalNli | backend/services/guardrail_service.py:184-213 | one classification per candidate sentence, warnings in sentence order |
| GuardrailService.ClassifySentences | backend/services/guardrail_service.py:203-211 | the loop flags each contradicted sentence as a contradiction, each neutral one as unverified, and no entailed one |
| GuardrailService.LongPiecesAre | backend/services/guardrail_service.py:192 | every candidate sentence is a stripped `.`-piece longer than ten characters, in order, and every such piece is a candidate |
| GuardrailService.Map | backend/services/guardrail_service.py:192 | one stripped piece per piece |
| GuardrailService.BlankSummaryNoSentences | backend/services/guardrail_service.py:192-198 | a blank summary has no candidate sentence |
| GuardrailService.NliWarningsBound | backend/services/guardrail_service.py:203-211 | at most one NLI warning per sentence, and none when every sentence is entailed |
| GuardrailService.RunAnalysisSync | backend/services/guardrail_service.py:215-247 | zero counts without an NER pipeline; the NER warnings and counts when it runs; then the NLI warnings in sentence order when the model is loaded and the summary is not blank |
| GuardrailService.NoNerOnlyNli | backend/services/guardrail_service.py:229-245 | without an NER pipeline or with an empty transcript, the counts are zero and every warning comes from NLI |
| GuardrailService.SupportedPasses | backend/services/guardrail_service.py:164-245 | with no NLI model and every summary entity present in the transcript, the analysis passes with no warning (lines 164-168 and 229-245) |
| GuardrailService.CheckHallucination | backend/services/guardrail_service.py:57-92 | the transcript flattened as `role: content` lines and the cleaned summary are analysed; an exception gives no warning and empty metrics |
| Guardrails.NonEmpty | backend/services/guardrails.py:71 | the kept parts are non-empty parts of the input, no more of them than there were |
| Guardrails.NonEmptyKeepsOrder | backend/services/guardrails.py:71 | a part is kept exactly when it is non-empty; with no empty part the list is unchanged |
| Guardrails.FullNoteText | backend/services/guardrails.py:63-71 | a note with all four sections filled flattens to subjective, objective, assessment and plan joined by `". "` |
| Guardrails.AssessmentOnlyText | backend/services/guardrails.py:63-71 | a note with only an assessment flattens to the assessment alone |
| Guardrails.OtherKeysIgnored | backend/services/guardrails.py:65-70 | keys other than the four sections do not change the flattened text |
| Guardrails.CheckMedicalNer | backend/services/guardrails.py:87-132 | exactly one `Entity Hallucination` warning per summary entity the transcript does not have |
| Guardrails.JoinSummary | backend/services/guardrails.py:63-73 | a mapping gives its non-empty sections joined by `". "`; text is used as it is |
| Guardrails.CheckHallucination | backend/services/guardrails.py:54-85 | the NER warnings when the pipeline is loaded, then the NLI warnings in sentence order when the model is loaded; no empty-text or blank-summary guard |
| Guardrails.BlankGuardRedundant | backend/services/guardrails.py:142-148 | without the blank-summary guard a blank summary still gives no NLI warning, since it has no sentence |
| Guardrails.CheckSafety | backend/services/guardrails.py:165-166 | this version of the safety check raises no alert |
| FeedbackService.EditDistanceAtMostLonger | backend/services/feedback_service.py:201 | the Levenshtein distance is at most the longer text's length |
| FeedbackService.EditDistanceAtLeastGap | backend/services/feedback_service.py:201 | the Levenshtein distance is at least the difference of the lengths |
| FeedbackService.EditDistanceSelf | backend/services/feedback_service.py:201 | a text is at distance 0 from itself |
| FeedbackService.CalculateEditMetrics | backend/services/feedback_service.py:194-212 | an empty side gives distance 0 and similarity 0.0; otherwise the distance is the Levenshtein distance |
| FeedbackService.SimilarityBounds | backend/services/feedback_service.py:202-211 | a distance up to the longer length scores between 0 and 1: 1 with no edit, 0 at the longer length |
| FeedbackService.SimilarityInRange | backend/services/feedback_service.py:194-212 | the similarity always lies between 0 and 1 |
| FeedbackService.UnchangedSimilarityOne | backend/services/feedback_service.py:198-211 | an unchanged non-empty note has distance 0 and similarity 1 |
| FeedbackService.DistanceAtLongerLengthScoresZero | backend/services/feedback_service.py:202-211 | an edit needing as many steps as the longer text has characters scores 0 |
| FeedbackService.ChosenIsEditUnlessEmpty | backend/services/feedback_service.py:38 | an accept trains on the original; otherwise the edit is chosen unless it is missing or empty |
| FeedbackService.RoutingByAction | backend/services/feedback_service.py:42-117 | only an edit gets a similarity and a distance; a reject writes no record, an accept goes to SFT, an edit to SFT or DPO, and any other action reaches the comparison without a similarity (lines 42-50 and 64-117) |
| FeedbackService.EditExtremesGoToSft | backend/services/feedback_service.py:106-114 | an unchanged edit goes to SFT, and so does one sharing nothing with the original |
| FeedbackService.PreferenceZone | backend/services/feedback_service.py:112-117 | an edit goes to DPO exactly when its similarity lies in [0.7, 0.9) |
| FeedbackService.FeedbackService.SaveFeedback | backend/services/feedback_service.py:21-119 | the feedback statistics are updated for every action and nothing else is; a reject returns its metrics with no record; an accept appends the record to SFT; an edit appends it to SFT or DPO by its similarity; another action raises after the update |
| FeedbackService.FeedbackService.File | backend/services/feedback_service.py:96-119 | a record that is not a rejection goes to SFT when accepted or when the edit's similarity is at least 0.9 or below 0.7, to DPO when it lies in between; with no similarity it raises and files nothing; otherwise the metrics are returned |
| FeedbackService.FeedbackService.SaveSessionMetrics | backend/services/feedback_service.py:121-192 | a session without metrics writes nothing and changes nothing; otherwise one chunk ticket is drawn and the session's summary, with the chunk count one less than that ticket, is appended to the metrics file |
| FeedbackService.Ratio | backend/services/feedback_service.py:138-139 | a ratio is 0 for a non-positive denominator and between 0 and 1 for a count within it |
| FeedbackService.RatiosGuarded | backend/services/feedback_service.py:133-180 | recall is 0 when the transcript count is 0; precision is 0 and the hallucination rate 1 when the summary count is 0 (lines 133-139 and 178-180) |
| FeedbackService.FeedbackBlockIffFeedback | backend/services/feedback_service.py:142-159 | the human-feedback block is present exactly when some feedback was recorded |
| FeedbackService.SingleChunkLatencyLost | backend/services/feedback_service.py:162-168 | with one chunk ticketed, the count as written reports no latency, while the intended count reports the recorded total |
| FeedbackService.IntendedAverageLatency | backend/services/feedback_service.py:162-164 | with the intended count, the average latency times the number of chunks is the total latency |
| FeedbackService.FeedbackService.constructor | backend/services/feedback_service.py:15-19 | a new service writes to the shared store and has appended no training record and no session summary |
| Schemas.ParseTaskType | backend/schemas.py:41 | a task type is accepted exactly when it is one of the four literal names, and names what was given |
| Schemas.ParseFeedbackType | backend/schemas.py:74 | a feedback type is accepted exactly when it is `thumbs_up`, `thumbs_down` or `edit` |
| Schemas.NewFeedbackRequest | backend/schemas.py:72-88 | a request is built exactly when the feedback type passes the literal check and an edit carries a non-empty edited summary; otherwise the error names which check failed |
| Prompts.GetSystemPrompt | backend/prompts/__init__.py:5-25 | the scribe prompt for the four note tasks, the classifier prompt for `role_service`, the generic assistant prompt for anything else |
| Prompts.GetSuffixPrompt | backend/prompts/__init__.py:14-31 | referral and certificate suffixes quote the context after the reference header; every other task, the SOAP ones included, gets "" (with backend/prompts/referral.py lines 3-18) |
| Prompts.SuffixQuotesContext | backend/prompts/referral.py:8-10 | the plain-text suffixes hold the context verbatim right after the header (with backend/prompts/certificate.py lines 3-10) |
| Config.KeepStripped | backend/core/config.py:33 | every kept piece is non-empty and stripped, and there are no more pieces than parts |
| Config.StopSequences | backend/core/config.py:31-33 | each stop sequence is non-empty, stripped and free of commas |
| Config.KeepStrippedNoComma | backend/core/config.py:33 | pieces split at commas keep no comma after stripping |
| Config.StripSubstring | backend/core/config.py:33 | stripping only removes characters |
| Config.KeepStrippedAppend | backend/core/config.py:33 | the pieces keep the order of the setting |
| Config.KeepStrippedMembers | backend/core/config.py:33 | exactly the non-blank pieces survive, each in its stripped form |
| Transform.MaxChunkIndex | data_pipeline/parsing/transform.py:8-11 | 0 for an empty history; otherwise the largest chunk index among the turns, reached by one of them, a missing index counting as 0 |
| Transform.FilterSoapItems | data_pipeline/parsing/transform.py:16-34 | a non-dict gives the empty note; otherwise each section holds exactly its item dicts that the mode selects, in order |
| Transform.FilterSection | data_pipeline/parsing/transform.py:26-33 | one section's selected item dicts are appended to that section, and the other sections are unchanged |
| Transform.FilteredMembers | data_pipeline/parsing/transform.py:26-33 | an item is kept exactly when it is an item dict of the list and the mode selects it |
| Transform.FilteredAppend | data_pipeline/parsing/transform.py:26-33 | filtering keeps the relative order of the items |
| Transform.FilterSpecMembers | data_pipeline/parsing/transform.py:21-34 | every kept item comes from the same section of the input and is selected by the mode, and every such item is kept |
| Transform.ModesDisjoint | data_pipeline/parsing/transform.py:30-33 | no item is both context and target for the same chunk |
| Transform.ContextGrows | data_pipeline/parsing/transform.py:30-33 | the context for the next chunk is this chunk's context together with its target |
| Transform.UnsourcedInEveryContext | data_pipeline/parsing/transform.py:29-31 | an item without a source chunk is in every context from chunk 0 on and in no target |
| Transform.UptoMembers | data_pipeline/parsing/transform.py:43-48 | a turn is kept exactly when it is in the history with a chunk index at most the current one |
| Transform.UptoKeepsAll | data_pipeline/parsing/transform.py:43-44 | when no turn is past the current chunk, every turn is kept |
| Transform.UptoMaxIsAll | data_pipeline/parsing/transform.py:8-44 | at the highest chunk index every turn is kept, so the last record sees the whole history (lines 8-11 and 43-44) |
| Transform.UptoPrefix | data_pipeline/parsing/transform.py:43-48 | in a history ordered by chunk index, the turns up to one chunk are a prefix of the turns up to a later one |
| Transform.FormatHistoryShape | data_pipeline/parsing/transform.py:37-51 | the formatted turns are the kept turns in order, each a user message `ROLE: content`, and the normalised content of each kept turn has the normalised shape |
| Transform.DefaultSpeaker | data_pipeline/parsing/transform.py:41 | a turn with no role or an empty one is labelled `SPEAKER` |
| Parse.HistoryTurns | data_pipeline/parsing/parse.py:28-33 | a missing history decodes as `[]`; JSON history decodes as it is; history that is not JSON fails as written (the second decode is outside the `try`) and falls back to `[]` as intended |
| Parse.ValidateTurns | data_pipeline/parsing/parse.py:34 | the turns validate exactly when every turn has a role and content; validation keeps their number and their role and content |
| Parse.NoteSource | data_pipeline/parsing/parse.py:38-43 | a missing or undecodable note field gives `{}`, otherwise the decoded value |
| Parse.ParseEntry | data_pipeline/parsing/parse.py:12-48 | strict mode refuses a missing session id; a parsed entry keeps the entry and its session id, and holds the decoded and validated history and the dumps of both validated notes; conversely, an entry whose history decodes and validates and whose two notes validate, with no session id missing in strict mode, is parsed |
| Parse.UndecodableHistoryFails | data_pipeline/parsing/parse.py:31-33 | as written, a history that is not JSON fails the whole line despite the fallback |
| Parse.UndecodableHistoryFallsBack | data_pipeline/parsing/parse.py:28-32 | as intended, the same line parses with an empty history when everything else is valid |
| Parse.ValidatedChunksLost | data_pipeline/parsing/parse.py:34-60 | as written, validation drops every turn's chunk index, so the highest chunk of a parsed history is 0 |
| Parse.ValidatedChunksKept | data_pipeline/parsing/parse.py:34-60 | as intended, the validated history keeps the chunk indices of the log |
| Parse.UniqueIdInjective | data_pipeline/parsing/parse.py:63 | within one session, distinct chunk indices give distinct record ids |
| Parse.StoppedStays | data_pipeline/parsing/parse.py:93-96 | once the generator has raised, later indices add nothing |
| Parse.IterParsedRecords | data_pipeline/parsing/parse.py:51-98 | the loop yields what the specification of the generator says: one item per chunk index in ascending order, ending at the first exception |
| Parse.YieldFor | data_pipeline/parsing/parse.py:63-98 | one pass of the loop yields `YieldAt`: `None` for a known id, otherwise the record or the exception its construction raises |
| Parse.BuildRecord | data_pipeline/parsing/parse.py:68-98 | the body for a new id gathers the history up to the chunk, the four filtered notes and the entry's fields, and constructs the record |
| Parse.AsWrittenNeverEmits | data_pipeline/parsing/parse.py:68-96 | as written, every index whose id is new raises, since the history passed is a pair rather than a list of turns |
| Parse.NoEmits | data_pipeline/parsing/parse.py:62-98 | when no index emits a record, nothing is emitted |
| Parse.IntendedArgsValid | data_pipeline/parsing/parse.py:75-92 | as intended, record construction never fails |
| Parse.IntendedYields | data_pipeline/parsing/parse.py:60-98 | as intended, exactly one item per chunk index `0..max_idx`, in order: `None` for a known id, otherwise the record with id `{session_id}_{idx}` |
| Parse.NeverStopped | data_pipeline/parsing/parse.py:62-98 | when no index raises, the generator yields exactly one item per index, each at its own position |
| Parse.RecordContents | data_pipeline/parsing/parse.py:68-92 | the record at a chunk has as context the chosen and rejected notes' items from earlier chunks, as completion their items of that chunk, and the history up to that chunk |
| Parse.LastRecordSeesAll | data_pipeline/parsing/parse.py:60-68 | the last record's history holds every turn of the log |
| Runner.DropReasonOf | data_pipeline/parsing/runner.py:36-47 | a line is kept exactly when its transcript is longer than the minimum and its note-to-transcript ratio lies strictly between the two bounds; otherwise the first reason that applies (too short, too sparse, too similar) is given |
| Runner.ProcessFile | data_pipeline/parsing/runner.py:21-70 | the loop ends in the state of the run over all lines: counters from zero, the known ids starting as those already written, each line failed, filtered or unrolled |
| Runner.WriteRecords | data_pipeline/parsing/runner.py:55-61 | each `None` is counted as a skip; each record is written, its id added to the known ids and counted as a success; an exception counts one failure |
| Runner.LiveSetSameYield | data_pipeline/parsing/runner.py:55-60 | adding the ids of other chunks of the same session while the generator runs does not change its answer at any chunk (with data_pipeline/parsing/parse.py lines 63-66) |
| Runner.EmittedFresh | data_pipeline/parsing/runner.py:55-60 | the records one entry emits have ids that were not known and differ from each other (with data_pipeline/parsing/parse.py lines 62-66) |
| Runner.ConsumeBookkept | data_pipeline/parsing/runner.py:55-61 | consuming new, distinct records keeps the bookkeeping: known ids are the initial ones plus those written, and the success count is the number written |
| Runner.RunBookkept | data_pipeline/parsing/runner.py:18-70 | over a whole run no id is written twice or was known before the run, the known ids are the initial ones plus those written, and `success` counts the records written |
| PipelineSchema.ParseRole | data_pipeline/schema.py:11 | an absent role takes the default `user`; a given role is accepted exactly when it is one of the three literals, and is kept |
| PipelineSchema.RoleRoundTrip | data_pipeline/schema.py:11 | every role survives a round trip through its literal |
| PipelineSchema.NewHistoryTurn | data_pipeline/schema.py:9-12 | a turn is built exactly when its role is accepted, and keeps its content |
| PipelineSchema.SoapSections.With | data_pipeline/parsing/transform.py:31-33 | replacing one section leaves the other three unchanged |
| PipelineSchema.EmptySections | data_pipeline/parsing/transform.py:13-14 | the empty note has all four sections empty |
| PipelineSchema.SectionsExtensionality | data_pipeline/parsing/transform.py:24-25 | two notes agreeing on every section are equal |
| PipelineSchema.NoteDump | data_pipeline/utils/typing.py:4-18 | the dump of a validated note keeps every section's items, each with its text and its source chunk |
| PipelineSchema.DumpItems | data_pipeline/utils/typing.py:18 | one dict per item, with the item's text and source chunk |
| PipelineSchema.EntryError | data_pipeline/schema.py:18-28 | arguments are refused exactly when they hold an undeclared keyword, a negative chunk index, or a history that is not a list of turns |
| PipelineSchema.NewParsedEntry | data_pipeline/schema.py:14-41 | a record is built exactly when the arguments are valid, and keeps the id, session id, chunk index and given history |
| PipelineSchema.DefaultsApply | data_pipeline/schema.py:24-41 | with only the required fields, the `task_type` is `soap`, the strings are empty, the history and notes are empty, and the metadata is `None` |
| PipelineSchema.NegativeChunkRefused | data_pipeline/schema.py:22 | a negative chunk index is refused whatever else is given |
| PipelineSchema.ExtraKeyRefused | data_pipeline/schema.py:18 | an undeclared keyword is refused whatever else is given |
| Normalization.DropPunctuation | data_pipeline/utils/normalization.py:19 | only lower-case ASCII letters, digits and whitespace survive the filter |
| Normalization.CollapseShape | data_pipeline/utils/normalization.py:19-22 | after the filter, collapsing leaves only normal characters and never two spaces in a row |
| Normalization.StripSlice | data_pipeline/utils/normalization.py:22 | stripping returns a slice of its argument |
| Normalization.NormalizeShape | data_pipeline/utils/normalization.py:4-24 | normalised text holds only lower-case letters, digits and single spaces, with no space at either end |
| Normalization.StripShape | data_pipeline/utils/normalization.py:22 | trimming text of normal characters without double spaces gives normalised text |
| Normalization.SliceKeepsShape | data_pipeline/utils/normalization.py:22 | a slice of such text keeps its shape |
| Normalization.CollapseKeepsSingleSpaces | data_pipeline/utils/normalization.py:22 | collapsing text with single spaces only changes nothing |
| Normalization.FilterKeepsNormal | data_pipeline/utils/normalization.py:19 | text of normal characters survives the filter |
| Normalization.NormalizedFixed | data_pipeline/utils/normalization.py:9-24 | normalised text is a fixed point of normalisation |
| Normalization.NormalizeIdempotent | data_pipeline/utils/normalization.py:4-24 | normalising twice is normalising once |
| Normalization.CollapseWordFirst | data_pipeline/utils/normalization.py:22 | a word with no whitespace in front is copied as it is |
| Normalization.CollapseRunFirst | data_pipeline/utils/normalization.py:22 | a whitespace run in front becomes one space |
| Normalization.LowerAppend | data_pipeline/utils/normalization.py:16 | lower-casing works character by character, so it distributes over concatenation |
| Normalization.CollapseTwoWords | data_pipeline/utils/normalization.py:22 | two words around a whitespace run collapse to the two words around one space |
| Normalization.DropAppend | data_pipeline/utils/normalization.py:19 | the punctuation filter works character by character, so it distributes over concatenation |
| Normalization.SameUpToCase | data_pipeline/utils/normalization.py:16-22 | texts that differ only in letter case normalise to the same text |
| Normalization.DroppedCharIgnored | data_pipeline/utils/normalization.py:16-22 | a character the filter removes, inserted anywhere in a text, does not change its normalised form |
| BuildDataset.ReplaceAbsent | data_pipeline/formatting/build_dataset.py:50 | with no occurrence of the placeholder, replacing changes nothing |
| BuildDataset.ReplaceAtFront | data_pipeline/formatting/build_dataset.py:50 | an occurrence at the front is replaced and the scan goes on after it |
| BuildDataset.ReplaceKeepsPlainPrefix | data_pipeline/formatting/build_dataset.py:50 | text without the placeholder's first character passes through unchanged |
| BuildDataset.UserContentWithoutPlaceholder | data_pipeline/formatting/build_dataset.py:49-53 | without a placeholder the template is kept and the context follows a `Context:` header |
| BuildDataset.UserContentInjects | data_pipeline/formatting/build_dataset.py:49-50 | a template holding the placeholder once gets the context in its place and is otherwise unchanged |
| BuildDataset.TurnMessages | data_pipeline/formatting/build_dataset.py:37-41 | one message per history turn, with its role and content only |
| BuildDataset.FormatConversation | data_pipeline/formatting/build_dataset.py:11-62 | the messages appended step by step are the conversation the layout describes |
| BuildDataset.ConversationLayout | data_pipeline/formatting/build_dataset.py:29-62 | a system message first exactly when the prompt is non-empty, then one message per history turn, then one user message with the context injected, then an assistant message exactly when a non-empty completion is asked for |
| BuildDataset.RejectedContext | data_pipeline/formatting/build_dataset.py:128 | the rejected side's context is its own note when that is present and non-empty, otherwise the chosen context |
| BuildDataset.PreferencePairShares | data_pipeline/formatting/build_dataset.py:116-138 | the chosen and rejected conversations share the system message and the history; with no rejected context of their own they share the user message too |
| BuildDataset.ParsedCompletionAnswered | data_pipeline/formatting/build_dataset.py:58-60 | a record with a note as completion always ends with the assistant's answer |
| BuildDataset.Rows | data_pipeline/formatting/build_dataset.py:72-92 | a file gives at most one row per line |
| BuildDataset.AddLine | data_pipeline/formatting/build_dataset.py:74-92 | one more line adds at most one row, and nothing once the file has failed |
| BuildDataset.RowsStep | data_pipeline/formatting/build_dataset.py:74-92 | reading one line further is one more step of the reading |
| BuildDataset.ProcessSftData | data_pipeline/formatting/build_dataset.py:64-94 | the loop gives exactly the rows of the file: blank lines skipped, a line that is not JSON ending the run, each record one conversation with its previous note as context and its completion as answer |
| BuildDataset.ProcessDpoData | data_pipeline/formatting/build_dataset.py:96-149 | the loop gives exactly the rows of the file, each record one chosen and one rejected conversation |
| BuildDataset.FormatPair | data_pipeline/formatting/build_dataset.py:114-143 | one record's chosen conversation uses the previous note and completion, its rejected one the rejected context and rejected completion |
| BuildDataset.ErrStays | data_pipeline/formatting/build_dataset.py:76-111 | once a line is not JSON, the rest of the file does not matter (lines 76 and 111) |
| BuildDataset.SftIsDpoChosen | data_pipeline/formatting/build_dataset.py:64-149 | the fine-tuning rows exist exactly when the preference rows do, and each is the chosen side of the matching pair |
| BuildDataset.RowsProject | data_pipeline/formatting/build_dataset.py:72-147 | rows built by a projection of another row builder are that builder's rows, projected (lines 72-92 and 107-147) |
| BuildDataset.AddLineProject | data_pipeline/formatting/build_dataset.py:74-147 | one more line keeps the projection (lines 74-92 and 109-147) |
| QualityCheck.ChunkContentsOk | data_pipeline/qa/quality_check.py:34-38 | selecting the chunk's turns raises exactly when one of them has no content, and never selects more turns than there are |
| QualityCheck.NoChunkTurnsAll | data_pipeline/qa/quality_check.py:40-43 | with no turn of the chunk, the whole history is checked |
| QualityCheck.NoMatchEmpty | data_pipeline/qa/quality_check.py:34-38 | with no turn of the chunk, nothing is selected |
| QualityCheck.ChunkContentsAre | data_pipeline/qa/quality_check.py:34-38 | the selected contents are exactly those of the chunk's turns, in order |
| QualityCheck.ParsedHistoryChecksAll | data_pipeline/qa/quality_check.py:37-43 | parsed records carry no chunk index on their turns, so the whole history is checked (with data_pipeline/schema.py lines 9-12) |
| QualityCheck.CompletionNote | data_pipeline/qa/quality_check.py:86 | a missing or empty completion is the empty note; a note is used as it is |
| QualityCheck.SummaryOf | data_pipeline/qa/quality_check.py:48-86 | as written, cleaning raises exactly when the note has an item (each item is a dict, not a string); as intended, it never raises (lines 48 and 86; with backend/services/guardrail_service.py lines 104-111) |
| QualityCheck.PassIff | data_pipeline/qa/quality_check.py:52-93 | the warning list is empty exactly when the analysis passes, whatever order the entity warnings come in (lines 52-54 and 93) |
| QualityCheck.RunGuardrail | data_pipeline/qa/quality_check.py:12-54 | fails exactly when selecting the transcript or cleaning the summary raises; otherwise the warnings are those of the analysis of the selected transcript and the cleaned summary |
| QualityCheck.FileVerdictsStep | data_pipeline/qa/quality_check.py:72-77 | one more line adds its verdict unless it is blank |
| QualityCheck.ProcessFile | data_pipeline/qa/quality_check.py:57-111 | blank lines are skipped and not counted; every other line lands in exactly one file, passing records tagged in the quality file and all others, failed or broken, explained in quarantine, each in input order; the counters agree with the files |
| QualityCheck.RouteLine | data_pipeline/qa/quality_check.py:78-109 | one line's output is appended to the file its verdict sends it to, keeping both files in step with the verdicts |
| QualityCheck.AllExplainedMeans | data_pipeline/qa/quality_check.py:99-108 | every quarantine line explains its verdict |
| QualityCheck.AppendVerdict | data_pipeline/qa/quality_check.py:96-108 | one more verdict adds to exactly one of the two files |
| QualityCheck.CheckLine | data_pipeline/qa/quality_check.py:78-109 | one line decodes, is checked and tagged with its warnings and pass flag, or becomes a broken-record line with the error and the raw line |
| QualityCheck.OutputsPartition | data_pipeline/qa/quality_check.py:77-108 | the two files together hold as many records as lines were counted (lines 77 and 96-108) |
| QualityCheck.EmptyNotePasses | data_pipeline/qa/quality_check.py:86-93 | a note without items passes whatever the transcript: its summary text is empty |
| QualityCheck.EmptyListsNoParts | backend/services/guardrail_service.py:104-113 | entries that are all empty lists contribute no text |
| QualityCheck.AsWrittenNeverFlags | data_pipeline/qa/quality_check.py:48-108 | as written, no record is ever flagged: a completion with items makes the cleaner raise and the line is quarantined as broken, and one without items passes (lines 48 and 86-108) |
| QualityCheck.IntendedChecksItems | data_pipeline/qa/quality_check.py:34-102 | as intended, a record whose transcript can be selected is analysed against the cleaned text of its items, and fails exactly when the analysis warns (lines 34-54 and 86-102) |
| QualityCheck.OutputsKeepName | data_pipeline/qa/quality_check.py:128-133 | both outputs keep the input file's name |
| QualityCheck.DistinctNamesDistinctOutputs | data_pipeline/qa/quality_check.py:128-133 | input files with different names never write to the same output file |
| Dedup.IntString | data_pipeline/dedup/CustomDedup.py:67 | `str(n)` of an integer is non-empty, every character after the first is a digit, and the first is a minus exactly when the number is negative and a digit otherwise |
| Dedup.IntStringValue | data_pipeline/dedup/CustomDedup.py:67 | the text reads back as the same number: `int(str(n)) == n` for every integer |
| Dedup.SurvivorsAreFirsts | data_pipeline/dedup/CustomDedup.py:19-30 | the exact step keeps exactly the first document of each hash not seen before, in input order |
| Dedup.SurvivorsDistinct | data_pipeline/dedup/CustomDedup.py:19-30 | no two kept documents share a hash, and none has a hash seen before |
| Dedup.ExactDeduplication.constructor | data_pipeline/dedup/CustomDedup.py:15-17 | a new step has seen no hash |
| Dedup.ExactDeduplication.Run | data_pipeline/dedup/CustomDedup.py:19-30 | the documents passed on are the first of each new hash, in order, and every hash of the input is seen afterwards |
| Dedup.ExtractDate | data_pipeline/dedup/CustomDedup.py:62-74 | a date is found exactly when the value is truthy, its text has at least ten characters and the fifth and eighth are `-`; it is the first ten characters |
| Dedup.IsoDateKept | data_pipeline/dedup/CustomDedup.py:66-74 | an ISO timestamp keeps its date: `2024-05-01T09:30:00` gives `2024-05-01` |
| Dedup.ExtractIdempotent | data_pipeline/dedup/CustomDedup.py:62-74 | an extracted date is extracted again unchanged |
| Dedup.NonTextNoDate | data_pipeline/dedup/CustomDedup.py:62-74 | numbers and flags never give a date |
| Dedup.Drop | data_pipeline/dedup/CustomDedup.py:54-58 | a dropped document keeps its id, with the duplicate flag and the reason written into its metadata |
| Dedup.Outcomes | data_pipeline/dedup/CustomDedup.py:95-140 | one outcome per document, each its step against the keys kept before it |
| Dedup.FilterSpec | data_pipeline/dedup/CustomDedup.py:77-140 | one outcome per document with its id and text; without a cluster file every document is passed on untouched |
| Dedup.MinhashRun | data_pipeline/dedup/CustomDedup.py:77-140 | the loop's outcomes are those of the filter's specification |
| Dedup.DocStep | data_pipeline/dedup/CustomDedup.py:100-140 | one document's outcome and the updated keys are the step's |
| Dedup.OutcomesPrefix | data_pipeline/dedup/CustomDedup.py:99-140 | the outcomes of the first documents do not depend on later ones |
| Dedup.OutcomeAt | data_pipeline/dedup/CustomDedup.py:99-140 | the outcome of a document is its step against the keys kept before it |
| Dedup.SeenMeaning | data_pipeline/dedup/CustomDedup.py:120-136 | the kept keys of a cluster are exactly the (id, date) keys of its dated documents so far |
| Dedup.ClusterVerdict | data_pipeline/dedup/CustomDedup.py:99-140 | a document outside every cluster is passed on; a clustered one without a valid date is dropped and not a duplicate; a clustered one with a date is dropped as a duplicate exactly when an earlier document had the same cluster, id and date, and is otherwise passed on marked as no duplicate |
| Dedup.OneOutcomeEach | data_pipeline/dedup/CustomDedup.py:77-140 | every document is passed on or dropped, never both, and keeps its id |
| DedupPath.DirPrefix | data_pipeline/dedup/path.py:15-30 | the directory part a component is appended to is empty or ends in `/` |
| DedupPath.JoinRelative | data_pipeline/dedup/path.py:15-30 | joining a relative component appends it after the directory prefix |
| DedupPath.Basename | data_pipeline/qa/quality_check.py:129 | the basename is the text after the last `/`: a suffix of the path without `/` |
| DedupPath.BasenameOfName | data_pipeline/qa/quality_check.py:129 | a name without `/` is its own basename |
| DedupPath.BasenameOfJoin | data_pipeline/qa/quality_check.py:129-133 | the basename of a file joined to a directory is the file's name |
| DedupPath.DedupPaths.HardOutput | data_pipeline/dedup/path.py:14-15 | the exact stage writes to the target's directory under the intermediate base |
| DedupPath.DedupPaths.FinalOutput | data_pipeline/dedup/path.py:29-30 | every target's final outputs share one `outputs` directory under the output base |
| DedupPath.StageShape | data_pipeline/dedup/path.py:17-27 | a stage directory is the stage's name and the target under the output base |
| DedupPath.StagesDistinct | data_pipeline/dedup/path.py:17-27 | the four stage directories are pairwise different for a relative target |
| DedupPath.StageInjective | data_pipeline/dedup/path.py:17-27 | equal stage directories under one base have equal stage names |
| DedupPath.OutputMatchesInput | data_pipeline/dedup/path.py:32-36 | whatever the writer puts for `${rank}`, the file it names matches the reader's `target*.jsonl` |

## Left out

- Network, processes and scheduling: the Redis connection, Celery's queueing, `apply_async` and its countdown, and concurrent workers are not modelled. A run is one atomic function of the store state, and a re-sent job is returned as a value.
- Logging, timing and files: log lines, `time.time()` latency measurement and the removal of the temporary audio file are left out. Timestamps and latencies are inputs.
- Machine-learning collaborators are inputs: the speech recognizer's segments, the role LLM's answer, the scribe LLM's generated text, and the NER and NLI model outputs.
- Floating point: similarities, ratios and latencies are `real` (exact rationals). Python's `round` to four places is `FeedbackService.Round4`, and rounding to an integer is `Common.RoundHalfEven`. Transcriber word confidences are integer hundredths.
- Unicode: NFKC normalisation in `normalize_text` is taken as the identity, and lower-casing covers ASCII letters only. The `\d` of the dosage pattern in safety.py (line 149) is read as an ASCII digit in `Safety.DigitRun` and `Safety.MatchDigits`, although Python's `\d` also matches other Unicode decimal digits.
- Hashing: SHA-256 is a parameter of `Session.HashMrn` and of the de-duplication keys; only the 64-hex-digit shape of its output is used.
- Aliasing of Pydantic objects: notes, requests and responses are values, so in-place mutation of a shared object is not modelled.
- The runner's and the pipeline's statistics counters, the exclusion-file writer, and the `main()` drivers with their argument parsing and file globbing are left out. That includes quality_check's `main`, which builds `GuardrailService(redis_client=None)` although the constructor takes no such argument.
- Several input files passed to the pipeline are modelled as one sequence of lines.
- A history field that decodes to something other than a list, and a message without the keys `format_conversation` reads (a `KeyError` in Python), are left out. JSON `null` is treated as a missing key.
- The runner's length thresholds are parameters, not the constants of its command line.
- Runner.ProcessFile: it runs on the corrected reading of `iter_parsed_records` (see "## Findings"). As written, the generator raises at the first new index, so the runner would count every such line as failed.
- Call sites in ingest.py that do not match the callee are modelled by their evident intent: `_transcribe_audio` and `_mask_dialogue`, the three-argument synchronous call to the asynchronous two-argument `check_hallucination`, setting `.speaker` on dictionary segments, the field names of `ScribeRequest` (the required fields of `ScribeResponse` are under the `Ingest.Process` line), and the note merge on a `SOAPNote` type that has no `merge`. The note is modelled as four sequences of items, each with its text and source chunk index, and merging appends section by section.
- The feedback router calls `save_feedback` with a different signature from the service's. The model follows the service's own signature.
- FeedbackService.FeedbackService.SaveFeedback: as written, backend/services/feedback_service.py lines 11-13 import `conversation_service`, `document_service` and `metrics_service`, but the repository modules define only classes, so the module never loads. The model takes the asynchronous repositories over the shared store in their place: `ConversationRepositoryAsync` for the history read (line 70), `DocumentServiceAsync` for the note read (line 71), and `MetricsServiceAsync` for the feedback statistics (line 55).
- FeedbackService.FeedbackService.SaveSessionMetrics: the same failed imports as `SaveFeedback` (feedback_service.py lines 11-13). The model takes the asynchronous conversation repository's ticket counter (`Conversation.ConversationRepositoryAsync.GetNextChunkIndex`) for `conversation_service.get_next_chunk_index` (line 162). It also reads the metrics hash directly, where the source calls `metrics_service.get_metrics` (line 127). The repository's value parsing is the identity on numbers, so the summary is the same.
- IngestFacts.ProcessSilence: it states the run with the intended `ScribeResponse`: a silent chunk returns the incoming note with no write and no increment. As written, the construction at ingest.py lines 111-116 lacks `model_used` and `processing_time_ms` (schemas.py lines 66 and 68) and raises a non-retryable `ValidationError`, so the run takes the terminal branch, the index becomes k+1 (line 267) and the outcome is `failed`.
- IngestFacts.SilenceStrandsSuccessor: it holds of the intended `ScribeResponse`, where a silent chunk leaves the index at k. As literally written, the silent chunk fails as described for `IngestFacts.ProcessSilence`, the index becomes k+1 without draining the buffer, and a parked k+1 is then stranded by the terminal-failure defect (`IngestFacts.TerminalFailureStrands`) instead.
- Key expiry: every write refreshes the key's time to live, `SESSION_TTL` (`expire` at backend/repositories/buffer.py line 28; conversation.py lines 49, 77, 101 and 149; `set(..., ex=SESSION_TTL)` at documents.py lines 54 and 73; metrics.py lines 52 and 107; notification.py lines 139 and 162; session.py line 39). In the model keys never expire. After an expiry the expected index would read 0 again (conversation.py lines 80-92) and parked payloads would vanish, so `IngestProtocol.SettledConsecutive`, `IngestProtocol.DeliverKeepsInv` and the repositories' read contracts hold only while no key of the session expires.
- Date and time fields written next to records (`created_at`, `timestamp` strings) are carried as opaque strings, and their formats are not checked.
- Ingest.Process: as written, the Celery task cannot run, and the model follows the evident intent at each of these places. (1) Imports: backend/services/llm_handler.py lines 18-24 import `SOAPItem` and `SOAPNoteGeneration`, which backend/schemas.py does not define, and line 30 imports `metrics_service`, while backend/repositories/metrics.py defines only the classes `MetricsServiceSync` and `MetricsServiceAsync`. So the imports of `llm_service` at ingest.py line 14 and at backend/services/role_service.py line 6 raise `ImportError`, and the task module never loads. The model takes `llm_service` as the handler (`Env.scribe`, `Env.roleAnswer`). Its `metrics_service.update_metrics(session_id, duration, 'total_latency_ms')` (llm_handler.py lines 219-221) is modelled as the synchronous metrics repository's `update_metrics` on the same store (`Ingest.Worker.RecordGeneration`), with the duration an input (`Env.scribeLatency`), since the asynchronous repository has no `update_metrics`. It runs after the model call and before the note is written (`Ingest.Compose`), so a fault after it, followed by a retry, adds the time again. (2) Repository wiring: ingest.py line 52 binds `r = redis_client.get_instance()`, a bare Redis connection, and lines 54-58 pass it to the five repositories. Each repository constructor calls `.get_instance()` on its argument again (backend/repositories/conversation.py lines 30-31, and the same in buffer.py, documents.py, metrics.py and notification.py), which raises `AttributeError` before the `try`. The model hands every repository the shared store. (3) `SOAPNote()`: `SOAPNote` declares its four sections as required strings (backend/schemas.py lines 46-50), while every caller fills them with lists of items. So the fallback `SOAPNote()` at ingest.py line 63 raises, and so does any validation of an item-list note. The model uses the item-list note with four empty lists as the empty note. (4) `ScribeResponse`: it requires `model_used: str` and `processing_time_ms: float` (schemas.py lines 66 and 68), and neither the silent-chunk return at ingest.py lines 111-116 nor `generate_scribe` at llm_handler.py lines 231-236 passes them. Both raise pydantic's `ValidationError`, which is not in `RETRYABLE_ERRORS` (ingest.py lines 44-50), so as written every delivery that reaches either construction takes the terminal branch: the index becomes k+1 at line 267 and the outcome is `failed`. `generate_scribe` also reads `request.existing_notes` and `request.chunk_index` (llm_handler.py lines 197 and 225), which `ScribeRequest` (schemas.py lines 36-42) does not declare. The model takes the intended response: `NoSpeech` carrying the incoming note for a silent chunk, and the delta that `Env.scribe` returns for a chunk with speech. (5) The guardrail call: `check_hallucination` applies `_clean_summary` (backend/services/guardrail_service.py line 64) outside its `try` (lines 69-92), and the cleaner runs `re.sub` on each list element (line 108). Each element of `delta_note.model_dump()` is an item dictionary, so the call raises `TypeError` for any delta with an item, and that error is not retryable either. The function also returns the dictionary `{"warnings", "metrics"}`, which is always truthy at ingest.py line 181. `Env.check` stands for the intended guardrail: the cleaner joins the items' text, as `QualityCheck.IntendedChecksItems` also assumes, and `check` gives the `warnings` list of the result.
- Ingest.Worker.ProcessAudioChunk: the same five departures as `Ingest.Process`. As written, the module fails to import through ingest.py line 14 (llm_handler.py lines 18-24 and 30), the repository constructors raise at ingest.py lines 54-58, `SOAPNote()` raises at line 63, both `ScribeResponse` constructions (ingest.py lines 111-116, llm_handler.py lines 231-236) raise a non-retryable `ValidationError`, and the guardrail call at line 181 raises for a delta with an item.
- Document.Empty: it stands for `SOAPNote()` as an item-list note with four empty sections. As written, `SOAPNote()` raises a validation error, because its four `str` fields are required (backend/schemas.py lines 46-50).
- LlmHandler.ParseOutput: in the SOAP branch it returns the item-list note and falls back to the empty note. As written, `SOAPNote(**structured_data)` (backend/services/llm_handler.py line 273) rejects item lists, and the fallback `SOAPNote()` at line 278 raises for its missing fields, so the branch raises.
- Transform.FilterSoapItems: it starts from four empty sections. As written, `get_empty_soap()` (data_pipeline/parsing/transform.py line 14) calls `SOAPNote()`, which raises, and `filter_soap_items` calls it at line 24, so every call raises.
- PipelineSchema.EmptySections: it stands for `SOAPNote().model_dump()`, which raises as written, for the same required `str` fields.
- QualityCheck.CompletionNote: the fallback for a record without a completion is four empty sections. As written, `SOAPNote().model_dump()` at data_pipeline/qa/quality_check.py line 86 raises there.
- Parse.ParseEntry: its note validation is a parameter that stands for validation against the item-list note. As written, `validate_data(..., SOAPNote)` at data_pipeline/parsing/parse.py lines 45-46 rejects every note whose sections are item lists.
- Session.SessionRepositoryAsync.ClearSession: it deletes exactly the keys of the given session, assuming session ids hold no `:` and no glob characters (`*`, `?`, `[`). As written, the pattern `session:{id}:*` (backend/repositories/session.py line 61) also matches the keys of a session whose id starts with `id:`, and an id holding glob characters matches other sessions too.
- LegacySession.SessionService.ClearSession: the same assumption on session ids as `Session.SessionRepositoryAsync.ClearSession`, for the same glob (backend/services/session_service.py line 359).
- RoleService.RolesFromAnswer: only string values of the answer become roles, and a field with another JSON value is skipped, so its turn gets `Unknown`. As written, `{int(k): v ...}` (backend/services/role_service.py line 82) keeps any value, and `model_copy(update=...)` at line 49 does not validate, so the turn's role becomes that value. Turn roles are strings in this model.

## Findings

| source | as written | input that shows it | evidently intended | confidence | as-written member | corrected member |
|---|---|---|---|---|---|---|
| backend/tasks/ingest.py:109-116 | the silent-chunk return comes before the increment and before the buffer is drained; with the intended `ScribeResponse` (the one modelled) the index stays at k. As literally written the response lacks required fields (schemas.py lines 66-68) and raises a non-retryable `ValidationError`, so the terminal branch moves the index to k+1 without draining, and a parked k+1 is stranded by the defect of the next row instead | a silent chunk k on turn while chunk k+1 is already parked: with the intended response the index stays at k; as written it becomes k+1; either way k+1 is never re-sent | a silent chunk is a committed turn: the index advances and the successor is handed on | not executed | IngestFacts.SilenceStrandsSuccessor | IngestProtocol.SilenceAdvances |
| backend/tasks/ingest.py:264-279 | a terminal failure increments the expected index but never drains the buffer | chunk k on turn fails for good in transcription while k+1 is parked: the index becomes k+1 and the parked job stays in the buffer for ever | a terminal failure hands on the buffered successor like a success does | not executed | IngestFacts.TerminalFailureStrands | IngestProtocol.FailureHandsOff |
| backend/tasks/ingest.py:77-279 | the terminal-failure branch increments the expected index whatever the job's own index (lines 77-89 and 264-279) | an early job k+1 whose save to the buffer fails for good moves the index to k+1, and the job k whose turn it was is then skipped as late | only the job on turn may advance the index | not executed | IngestFacts.EarlyFailureSkipsTurn | IngestProtocol.StepAdvance |
| backend/tasks/ingest.py:216-267 | an exception after the increment at line 216 reaches the failure branch, which increments again (lines 216 and 267) | chunk k on turn whose read of the buffer fails for good: the expected index ends at k+2 and chunk k+1 is skipped | each index advances the expected index exactly once | not executed | IngestFacts.LateFailureAdvancesTwice | IngestProtocol.StepAdvance |
| backend/tasks/ingest.py:36-171 | the merge starts from the `current_note` task argument, not from the note stored for the session (lines 36, 61-63 and 160-171) | two runs that store the same delta on a session whose stored note differs leave the same note: whatever the earlier chunks stored is overwritten by a note built from the argument | the delta is merged into the note stored for the session | not executed | IngestFacts.ProcessIgnoresStoredNote | IngestProtocol.StepMergesStoredNote |
| backend/tasks/ingest.py:82-232 | the buffered payload and the re-sent job omit the required `current_note` argument (lines 82-88 and 219-232) | a successful run of chunk k re-sends k+1 without `current_note`; that run fails on argument binding and changes nothing, so the session is wedged at k+1 | the re-sent job runs on turn and its run merges into the stored note | not executed | IngestFacts.HandedOffJobFails | IngestProtocol.HandOffIsOnTurn |
| backend/tasks/ingest.py:134-259 | the history append happens before steps that may ask for a retry, and the retried run appends again (lines 134-135 and 252-259) | chunk k on turn whose history read-back fails transiently: after the retry succeeds, the chunk's turns are in the history twice | a retry leaves the history as if the chunk had been processed once | not executed | IngestFacts.RetryDuplicatesHistory | IngestProtocol.RetryIsClean |
| backend/services/feedback_service.py:162 | `total_chunks` is the next ticket minus one, and reading it issues a new ticket | a session with one chunk: the ticket counter returns 1, so total chunks is 0 and the average latency is lost | the number of chunks is the number of tickets already issued | not executed | FeedbackService.SingleChunkLatencyLost | FeedbackService.IntendedAverageLatency |
| data_pipeline/parsing/parse.py:33 | the history string is decoded again outside the `try`, so a history that is not valid JSON raises out of the function | an entry whose history field is the string `"not json"` | an undecodable history falls back like the other decoding errors | not executed | Parse.UndecodableHistoryFails | Parse.UndecodableHistoryFallsBack |
| data_pipeline/parsing/parse.py:34 | validation rebuilds the turns without their `chunk_index`, so every turn's index is lost | an entry whose history turns carry chunk indices 0 and 1: the parsed turns carry none | the parsed turns keep their chunk index | not executed | Parse.ValidatedChunksLost | Parse.ValidatedChunksKept |
| data_pipeline/parsing/parse.py:68-82 | `format_history_upto` returns a pair of the turns and the transcript, and the pair is passed as the record's history list, so constructing the record fails validation and the generator raises | any entry whose history has a turn, with no record of its session written yet: the first index raises and nothing is yielded | the record's history is the list of formatted turns, and one record is yielded per chunk index of the history | not executed | Parse.AsWrittenNeverEmits | Parse.IntendedYields |
| data_pipeline/qa/quality_check.py:48-86 | the summary cleaner joins the note's items as strings, but each item is a dictionary, so cleaning raises for any note with an item (lines 48 and 86) | a completion whose Subjective section holds one item: the line is quarantined as broken, never checked | the cleaner joins the items' text, and the record is checked against it | not executed | QualityCheck.AsWrittenNeverFlags | QualityCheck.IntendedChecksItems |
