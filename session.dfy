/**
 * Session lifecycle: creation with pseudonymised patient id, metadata lookup,
 * and the wipe of every key under `session:{id}:`.
 */
module Session {
  import opened Common
  import opened Store

  predicate IsHexDigit(c: char)
  {
    '0' <= c <= '9' || 'a' <= c <= 'f'
  }

  /** What `hashlib.sha256(...).hexdigest()` returns: 64 lower-case hex digits. */
  type HexDigest = s: string | |s| == 64 && forall i :: 0 <= i < |s| ==> IsHexDigit(s[i])
    witness seq(64, _ => '0')

  /**
   * `hash_mrn`: the first 32 hex digits of the SHA-256 of the record number.
   * The hash function itself is a parameter; only its output shape is used.
   */
  function HashMrn(mrn: string, sha256: string -> HexDigest): (r: string)
    ensures |r| == 32 && forall i :: 0 <= i < 32 ==> IsHexDigit(r[i])
    ensures StartsWith(sha256(mrn), r)
  {
    sha256(mrn)[..32]
  }

  /** The fields `create_session` writes into the metadata hash. */
  function SessionMetadata(doctorId: string, patientId: string, now: string): (m: map<string, string>)
    ensures m.Keys == {"doctor_id", "patient_id", "session_start"}
    ensures m["doctor_id"] == doctorId && m["patient_id"] == patientId && m["session_start"] == now
  {
    map["doctor_id" := doctorId, "patient_id" := patientId, "session_start" := now]
  }

  class SessionRepositoryAsync {
    const redis: Redis

    constructor(redis: Redis)
      ensures this.redis == redis
    {
      this.redis := redis;
    }

    /**
     * HSET with a mapping: the three fields are upserted, other metadata
     * fields are kept; the session id is returned unchanged.
     */
    method CreateSession(sid: string, doctorId: string, mrn: string, now: string, sha256: string -> HexDigest)
      returns (r: string)
      modifies redis
      ensures r == sid
      ensures redis.Get(sid) == old(redis.Get(sid)).(metadata :=
                Hash(old(redis.Get(sid)).metadata.fields + SessionMetadata(doctorId, HashMrn(mrn, sha256), now)))
      ensures SameExcept(old(redis.sessions), redis.sessions, sid)
    {
      var st := redis.Get(sid);
      redis.sessions := redis.sessions[sid := st.(metadata := Hash(st.metadata.fields + SessionMetadata(doctorId, HashMrn(mrn, sha256), now)))];
      r := sid;
    }

    /** The metadata hash, or nothing when it is empty or absent. */
    method GetSessionMetadata(sid: string) returns (r: Option<map<string, string>>)
      ensures r.None? <==> redis.Get(sid).metadata.fields == map[]
      ensures r.Some? ==> r.value == redis.Get(sid).metadata.fields
    {
      var m := redis.Get(sid).metadata.fields;
      if m == map[] {
        r := None;
      } else {
        r := Some(m);
      }
    }

    /** Deletes every key of the session: afterwards it reads as a fresh session. */
    method ClearSession(sid: string)
      modifies redis
      ensures sid !in redis.sessions
      ensures redis.Get(sid) == Fresh()
      ensures forall s :: s != sid ==> (s in redis.sessions <==> s in old(redis.sessions))
      ensures SameExcept(old(redis.sessions), redis.sessions, sid)
    {
      redis.sessions := redis.sessions - {sid};
    }
  }
}
