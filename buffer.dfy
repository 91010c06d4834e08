/**
 * The buffer hash `session:{id}:buffer`: jobs that arrived before their turn,
 * keyed by chunk index.
 */
module Buffer {
  import opened Common
  import opened Store

  class BufferServiceSync {
    const redis: Redis

    constructor(redis: Redis)
      ensures this.redis == redis
    {
      this.redis := redis;
    }

    /** HSET: stores the payload under the index, replacing whatever was there. */
    method SaveChunk(sid: string, chunkIndex: int, payload: Payload)
      modifies redis
      ensures redis.Get(sid) == old(redis.Get(sid)).(buffer := Hash(old(redis.Get(sid)).buffer.fields[chunkIndex := payload]))
      ensures SameExcept(old(redis.sessions), redis.sessions, sid)
    {
      var st := redis.Get(sid);
      redis.sessions := redis.sessions[sid := st.(buffer := Hash(st.buffer.fields[chunkIndex := payload]))];
    }

    /** HGET: the payload parked under the index, or None. */
    method GetChunk(sid: string, chunkIndex: int) returns (p: Option<Payload>)
      ensures p.Some? <==> chunkIndex in redis.Get(sid).buffer.fields
      ensures p.Some? ==> p.value == redis.Get(sid).buffer.fields[chunkIndex]
    {
      var st := redis.Get(sid);
      if chunkIndex in st.buffer.fields {
        p := Some(st.buffer.fields[chunkIndex]);
      } else {
        p := None;
      }
    }

    /** HDEL: removes that index only. */
    method DelChunk(sid: string, chunkIndex: int)
      modifies redis
      ensures redis.Get(sid) == old(redis.Get(sid)).(buffer := Hash(old(redis.Get(sid)).buffer.fields - {chunkIndex}))
      ensures SameExcept(old(redis.sessions), redis.sessions, sid)
    {
      var st := redis.Get(sid);
      redis.sessions := redis.sessions[sid := st.(buffer := Hash(st.buffer.fields - {chunkIndex}))];
    }
  }
}
