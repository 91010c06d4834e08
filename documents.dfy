/**
 * The document repository: the note slot `session:{id}:soap`, overwritten on
 * every update, and per-task-type text drafts.
 */
module Documents {
  import opened Common
  import opened Document
  import opened Store

  class DocumentServiceSync {
    const redis: Redis

    constructor(redis: Redis)
      ensures this.redis == redis
    {
      this.redis := redis;
    }

    /** SET: the stored note becomes exactly `note`; nothing is merged. */
    method UpdateSoapNote(sid: string, note: Note)
      modifies redis
      ensures redis.Get(sid) == old(redis.Get(sid)).(soap := Some(note))
      ensures SameExcept(old(redis.sessions), redis.sessions, sid)
    {
      var st := redis.Get(sid);
      redis.sessions := redis.sessions[sid := st.(soap := Some(note))];
    }

    /** GET: the last note stored, or None when nothing was stored. */
    method GetSoapNote(sid: string) returns (note: Option<Note>)
      ensures note == redis.Get(sid).soap
      ensures sid !in redis.sessions ==> note == None
    {
      note := redis.Get(sid).soap;
    }

    /** SET of the draft for one task type; the note and other drafts are untouched. */
    method SaveTextDraft(sid: string, taskType: string, rawText: string)
      modifies redis
      ensures redis.Get(sid) == old(redis.Get(sid)).(drafts := old(redis.Get(sid)).drafts[taskType := rawText])
      ensures SameExcept(old(redis.sessions), redis.sessions, sid)
    {
      var st := redis.Get(sid);
      redis.sessions := redis.sessions[sid := st.(drafts := st.drafts[taskType := rawText])];
    }
  }

  class DocumentServiceAsync {
    const redis: Redis

    constructor(redis: Redis)
      ensures this.redis == redis
    {
      this.redis := redis;
    }

    method GetSoapNote(sid: string) returns (note: Option<Note>)
      ensures note == redis.Get(sid).soap
    {
      note := redis.Get(sid).soap;
    }

    /** GET of the draft: the last text saved for that task type, or None. */
    method GetTextDraft(sid: string, taskType: string) returns (text: Option<string>)
      ensures text.Some? <==> taskType in redis.Get(sid).drafts
      ensures text.Some? ==> text.value == redis.Get(sid).drafts[taskType]
    {
      var st := redis.Get(sid);
      text := if taskType in st.drafts then Some(st.drafts[taskType]) else None;
    }
  }
}
