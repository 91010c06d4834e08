/**
 * The conversation repository: the ticket counter handed out at upload, the
 * expected-index counter the worker compares against, and the two
 * append-only lists (dialogue history for the LLM, segments for the UI).
 */
module Conversation {
  import opened Schemas
  import opened Store

  class ConversationRepositorySync {
    const redis: Redis

    constructor(redis: Redis)
      ensures this.redis == redis
    {
      this.redis := redis;
    }

    /** RPUSH of the turns onto the history list; nothing is written for an empty list. */
    method AddDialogueTurns(sid: string, turns: seq<DialogueTurn>)
      modifies redis
      ensures turns == [] ==> redis.sessions == old(redis.sessions)
      ensures redis.Get(sid) == old(redis.Get(sid)).(history := old(redis.Get(sid)).history + turns)
      ensures SameExcept(old(redis.sessions), redis.sessions, sid)
    {
      if turns == [] {
        return;
      }
      var st := redis.Get(sid);
      redis.sessions := redis.sessions[sid := st.(history := st.history + turns)];
    }

    /** LRANGE 0 -1: the whole history in append order. */
    method GetDialogueHistory(sid: string) returns (h: seq<DialogueTurn>)
      ensures h == redis.Get(sid).history
    {
      h := redis.Get(sid).history;
    }

    /** RPUSH of the segments onto the separate UI list; nothing is written for an empty list. */
    method AddUiSegments(sid: string, segments: seq<SegmentInfo>)
      modifies redis
      ensures segments == [] ==> redis.sessions == old(redis.sessions)
      ensures redis.Get(sid) == old(redis.Get(sid)).(uiTranscript := old(redis.Get(sid)).uiTranscript + segments)
      ensures SameExcept(old(redis.sessions), redis.sessions, sid)
    {
      if segments == [] {
        return;
      }
      var st := redis.Get(sid);
      redis.sessions := redis.sessions[sid := st.(uiTranscript := st.uiTranscript + segments)];
    }

    /** GET of the expected index; a missing key reads as 0. */
    method GetExpectedChunkIndex(sid: string) returns (k: int)
      ensures k == redis.Get(sid).nextChunk
      ensures sid !in redis.sessions ==> k == 0
    {
      k := redis.Get(sid).nextChunk;
    }

    /** INCR of the expected index; returns the new value, which later reads see. */
    method IncrementExpectedChunkIndex(sid: string) returns (k: int)
      modifies redis
      ensures k == old(redis.Get(sid).nextChunk) + 1
      ensures redis.Get(sid) == old(redis.Get(sid)).(nextChunk := k)
      ensures SameExcept(old(redis.sessions), redis.sessions, sid)
    {
      var st := redis.Get(sid);
      k := st.nextChunk + 1;
      redis.sessions := redis.sessions[sid := st.(nextChunk := k)];
    }
  }

  class ConversationRepositoryAsync {
    const redis: Redis

    constructor(redis: Redis)
      ensures this.redis == redis
    {
      this.redis := redis;
    }

    method GetDialogueHistory(sid: string) returns (h: seq<DialogueTurn>)
      ensures h == redis.Get(sid).history
    {
      h := redis.Get(sid).history;
    }

    method GetUiSegments(sid: string) returns (segments: seq<SegmentInfo>)
      ensures segments == redis.Get(sid).uiTranscript
    {
      segments := redis.Get(sid).uiTranscript;
    }

    /**
     * INCR of the ticket counter, returning the new count minus one: the
     * number of tickets issued before, so successive calls return 0, 1, 2, ...
     * The expected index is a different key and is not touched.
     */
    method GetNextChunkIndex(sid: string) returns (ticket: int)
      modifies redis
      ensures ticket == old(redis.Get(sid).chunkCount)
      ensures redis.Get(sid) == old(redis.Get(sid)).(chunkCount := ticket + 1)
      ensures redis.Get(sid).nextChunk == old(redis.Get(sid).nextChunk)
      ensures SameExcept(old(redis.sessions), redis.sessions, sid)
    {
      var st := redis.Get(sid);
      var newCount := st.chunkCount + 1;
      redis.sessions := redis.sessions[sid := st.(chunkCount := newCount)];
      ticket := newCount - 1;
    }
  }
}
