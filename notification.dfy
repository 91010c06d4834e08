/**
 * The notification ledger: quality-check warnings and safety alerts, each a
 * hash keyed by chunk index (`session:{id}:warnings`, `session:{id}:safety`).
 * Writes overwrite per chunk; reads never delete.
 */
module Notification {
  import opened Common
  import opened Store

  /** The chunk indices whose stored value parses. */
  function Readable(h: map<int, Entry>): set<int>
  {
    set k | k in h && h[k].Entry?
  }

  /** HGET of one field: that chunk's entry, or nothing when it is absent or does not parse. */
  function Pinpoint(h: map<int, Entry>, chunkIndex: int): (r: seq<Entry>)
    ensures |r| <= 1
    ensures r != [] <==> chunkIndex in Readable(h)
    ensures forall e :: e in r ==> e == h[chunkIndex]
  {
    if chunkIndex in h && h[chunkIndex].Entry? then [h[chunkIndex]] else []
  }

  /**
   * HGETALL followed by parsing each value: one entry per stored chunk whose
   * value parses, in the hash's own order (reported in `fields`), skipping the
   * rest.
   */
  method ReadAll(h: map<int, Entry>) returns (r: seq<Entry>, ghost fields: seq<int>)
    ensures |fields| == |r|
    ensures forall i :: 0 <= i < |r| ==> fields[i] in h && h[fields[i]] == r[i] && r[i].Entry?
    ensures forall i, j :: 0 <= i < j < |fields| ==> fields[i] != fields[j]
    ensures forall k :: k in Readable(h) ==> k in fields
  {
    var rest := h.Keys;
    r, fields := [], [];
    while rest != {}
      invariant rest <= h.Keys
      invariant |fields| == |r|
      invariant forall i :: 0 <= i < |r| ==> fields[i] in h && h[fields[i]] == r[i] && r[i].Entry?
      invariant forall i :: 0 <= i < |fields| ==> fields[i] !in rest
      invariant forall i, j :: 0 <= i < j < |fields| ==> fields[i] != fields[j]
      invariant forall k :: k in Readable(h) && k !in rest ==> k in fields
      decreases |rest|
    {
      assert (forall x :: x !in rest) ==> rest == {};
      var k :| k in rest;
      if h[k].Entry? {
        r, fields := r + [h[k]], fields + [k];
      }
      rest := rest - {k};
    }
  }

  class NotificationServiceSync {
    const redis: Redis

    constructor(redis: Redis)
      ensures this.redis == redis
    {
      this.redis := redis;
    }

    /** HSET of `{chunk_index, timestamp, warnings}` under the chunk; nothing for an empty list. */
    method AddWarning(sid: string, warnings: seq<string>, chunkIndex: int, now: string)
      modifies redis
      ensures warnings == [] ==> redis.sessions == old(redis.sessions)
      ensures warnings != [] ==> redis.Get(sid) == old(redis.Get(sid)).(warnings :=
                Hash(old(redis.Get(sid)).warnings.fields[chunkIndex := Entry(chunkIndex, now, warnings)]))
      ensures SameExcept(old(redis.sessions), redis.sessions, sid)
    {
      if warnings == [] {
        return;
      }
      var st := redis.Get(sid);
      redis.sessions := redis.sessions[sid := st.(warnings := Hash(st.warnings.fields[chunkIndex := Entry(chunkIndex, now, warnings)]))];
    }

    /** HSET of `{chunk_index, timestamp, alerts}` into the separate safety hash. */
    method AddSafetyAlert(sid: string, alerts: seq<string>, chunkIndex: int, now: string)
      modifies redis
      ensures alerts == [] ==> redis.sessions == old(redis.sessions)
      ensures alerts != [] ==> redis.Get(sid) == old(redis.Get(sid)).(safety :=
                Hash(old(redis.Get(sid)).safety.fields[chunkIndex := Entry(chunkIndex, now, alerts)]))
      ensures SameExcept(old(redis.sessions), redis.sessions, sid)
    {
      if alerts == [] {
        return;
      }
      var st := redis.Get(sid);
      redis.sessions := redis.sessions[sid := st.(safety := Hash(st.safety.fields[chunkIndex := Entry(chunkIndex, now, alerts)]))];
    }
  }

  class NotificationServiceAsync {
    const redis: Redis

    constructor(redis: Redis)
      ensures this.redis == redis
    {
      this.redis := redis;
    }

    /** With an index: at most that chunk's entry. Without: every readable entry once. */
    method GetWarnings(sid: string, chunkIndex: Option<int>) returns (r: seq<Entry>, ghost fields: seq<int>)
      ensures chunkIndex.Some? ==> r == Pinpoint(redis.Get(sid).warnings.fields, chunkIndex.value)
      ensures chunkIndex.None? ==> |r| == |fields| && (forall k :: k in fields <==> k in Readable(redis.Get(sid).warnings.fields))
      ensures chunkIndex.None? ==> forall i :: 0 <= i < |r| ==> fields[i] in redis.Get(sid).warnings.fields && r[i] == redis.Get(sid).warnings.fields[fields[i]]
      ensures forall i, j :: 0 <= i < j < |fields| ==> fields[i] != fields[j]
    {
      var h := redis.Get(sid).warnings.fields;
      if chunkIndex.Some? {
        r, fields := Pinpoint(h, chunkIndex.value), [];
      } else {
        r, fields := ReadAll(h);
      }
    }

    method GetSafetyAlerts(sid: string, chunkIndex: Option<int>) returns (r: seq<Entry>, ghost fields: seq<int>)
      ensures chunkIndex.Some? ==> r == Pinpoint(redis.Get(sid).safety.fields, chunkIndex.value)
      ensures chunkIndex.None? ==> |r| == |fields| && (forall k :: k in fields <==> k in Readable(redis.Get(sid).safety.fields))
      ensures chunkIndex.None? ==> forall i :: 0 <= i < |r| ==> fields[i] in redis.Get(sid).safety.fields && r[i] == redis.Get(sid).safety.fields[fields[i]]
      ensures forall i, j :: 0 <= i < j < |fields| ==> fields[i] != fields[j]
    {
      var h := redis.Get(sid).safety.fields;
      if chunkIndex.Some? {
        r, fields := Pinpoint(h, chunkIndex.value), [];
      } else {
        r, fields := ReadAll(h);
      }
    }
  }
}
