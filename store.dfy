/**
 * The shared key-value store. Every key the backend writes for a session is
 * prefixed `session:{id}:`, so the store is modelled as one record of key
 * families per session id. A key that was never written reads as its empty
 * value (`Fresh`), as Redis returns nil, an empty list or an empty hash.
 */
module Store {
  import opened Common
  import opened Document
  import opened Schemas

  /** `{file_path, session_id, chunk_index, is_last_chunk}` parked for a job that came early. */
  datatype Payload = Payload(filePath: string, sessionId: string, chunkIndex: int, isLastChunk: bool)

  /**
   * A notification hash value: the parsed `{chunk_index, timestamp, warnings|alerts}`
   * record, or a stored value that is not valid JSON.
   */
  datatype Entry = Entry(chunkIndex: int, timestamp: string, messages: seq<string>) | Unreadable(raw: string)

  /** A Redis hash: its fields and their values. */
  datatype Hash<K, V> = Hash(fields: map<K, V>)

  datatype SessionState = SessionState(
    chunkCount: int,                 // session:{id}:chunk_count, the ticket counter
    nextChunk: int,                  // session:{id}:next_chunk, the expected index
    history: seq<DialogueTurn>,      // session:{id}:history
    uiTranscript: seq<SegmentInfo>,  // session:{id}:ui_transcript
    buffer: Hash<int, Payload>,      // session:{id}:buffer, field str(chunk_index)
    soap: Option<Note>,              // session:{id}:soap
    drafts: map<string, string>,     // session:{id}:{task_type}:draft
    warnings: Hash<int, Entry>,      // session:{id}:warnings, field str(chunk_index)
    safety: Hash<int, Entry>,        // session:{id}:safety, field str(chunk_index)
    metrics: Hash<string, real>,     // session:{id}:metrics
    metadata: Hash<string, string>)  // session:{id}:metadata

  /** What a session whose keys do not exist reads as. */
  function Fresh(): SessionState
  {
    SessionState(0, 0, [], [], Hash(map[]), None, map[], Hash(map[]), Hash(map[]), Hash(map[]), Hash(map[]))
  }

  function Lookup(m: map<string, SessionState>, sid: string): SessionState
  {
    if sid in m then m[sid] else Fresh()
  }

  /** Every session other than `sid` reads the same in both stores. */
  ghost predicate SameExcept(before: map<string, SessionState>, after: map<string, SessionState>, sid: string)
  {
    forall other :: other != sid ==> Lookup(after, other) == Lookup(before, other)
  }

  class Redis {
    var sessions: map<string, SessionState>

    constructor()
      ensures sessions == map[]
    {
      sessions := map[];
    }

    function Get(sid: string): SessionState
      reads this
    {
      Lookup(sessions, sid)
    }
  }
}
