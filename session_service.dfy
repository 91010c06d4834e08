/**
 * The older single-class session service: the same keys and the same
 * operations as the repositories, behind one object. Each operation is the
 * repository's, except `get_metrics`, which converts every value with `int()`.
 */
module LegacySession {
  import opened Common
  import opened Document
  import opened Schemas
  import opened Store
  import Conversation
  import Documents
  import Metrics
  import Notification
  import Session

  /** `int(v)` of a stored total: defined only when the total is a whole number. */
  function ToInt(x: real): (r: Result<int>)
    ensures r.Ok? <==> x == x.Floor as real
    ensures r.Ok? ==> r.value as real == x
  {
    if x == x.Floor as real then Ok(x.Floor) else Err("invalid literal for int()")
  }

  predicate AllWhole(t: map<string, real>)
  {
    forall f :: f in t ==> t[f] == t[f].Floor as real
  }

  class SessionService {
    const redis: Redis

    constructor(redis: Redis)
      ensures this.redis == redis
    {
      this.redis := redis;
    }

    method AddDialogueTurns(sid: string, turns: seq<DialogueTurn>)
      modifies redis
      ensures turns == [] ==> redis.sessions == old(redis.sessions)
      ensures redis.Get(sid) == old(redis.Get(sid)).(history := old(redis.Get(sid)).history + turns)
      ensures SameExcept(old(redis.sessions), redis.sessions, sid)
    {
      var repo := new Conversation.ConversationRepositorySync(redis);
      repo.AddDialogueTurns(sid, turns);
    }

    method GetDialogueHistory(sid: string) returns (h: seq<DialogueTurn>)
      ensures h == redis.Get(sid).history
    {
      var repo := new Conversation.ConversationRepositoryAsync(redis);
      h := repo.GetDialogueHistory(sid);
    }

    method AddUiSegments(sid: string, segments: seq<SegmentInfo>)
      modifies redis
      ensures segments == [] ==> redis.sessions == old(redis.sessions)
      ensures redis.Get(sid) == old(redis.Get(sid)).(uiTranscript := old(redis.Get(sid)).uiTranscript + segments)
      ensures SameExcept(old(redis.sessions), redis.sessions, sid)
    {
      var repo := new Conversation.ConversationRepositorySync(redis);
      repo.AddUiSegments(sid, segments);
    }

    method GetUiSegments(sid: string) returns (segments: seq<SegmentInfo>)
      ensures segments == redis.Get(sid).uiTranscript
    {
      var repo := new Conversation.ConversationRepositoryAsync(redis);
      segments := repo.GetUiSegments(sid);
    }

    method UpdateSoapNote(sid: string, note: Note)
      modifies redis
      ensures redis.Get(sid) == old(redis.Get(sid)).(soap := Some(note))
      ensures SameExcept(old(redis.sessions), redis.sessions, sid)
    {
      var repo := new Documents.DocumentServiceSync(redis);
      repo.UpdateSoapNote(sid, note);
    }

    method GetSoapNote(sid: string) returns (note: Option<Note>)
      ensures note == redis.Get(sid).soap
    {
      var repo := new Documents.DocumentServiceAsync(redis);
      note := repo.GetSoapNote(sid);
    }

    method UpdateMetrics(sid: string, metrics: Metrics.MetricsArg, field: Option<string>)
      modifies redis
      ensures redis.Get(sid) == old(redis.Get(sid)).(metrics := Hash(redis.Get(sid).metrics.fields))
      ensures SameExcept(old(redis.sessions), redis.sessions, sid)
      ensures Metrics.Falsy(metrics) || (metrics.Single? && (field.None? || field.value == "")) ==>
                redis.Get(sid) == old(redis.Get(sid))
      ensures !Metrics.Falsy(metrics) && metrics.Fields? ==> forall f ::
                Metrics.Total(redis.Get(sid).metrics.fields, f)
                  == Metrics.Total(old(redis.Get(sid).metrics.fields), f) + Metrics.Increment(metrics.values, f)
                && (f in redis.Get(sid).metrics.fields <==> f in old(redis.Get(sid).metrics.fields) || Metrics.Increment(metrics.values, f) != 0.0)
      ensures !Metrics.Falsy(metrics) && metrics.Single? && field.Some? && field.value != "" ==>
                redis.Get(sid).metrics.fields == Metrics.HIncr(old(redis.Get(sid).metrics.fields), field.value, Metrics.ValueOf(metrics.n))
    {
      var repo := new Metrics.MetricsServiceSync(redis);
      repo.UpdateMetrics(sid, metrics, field);
    }

    /**
     * HGETALL with `int()` applied to every value: the whole hash as integers,
     * or an error as soon as one total is fractional (a float latency or a
     * similarity sum).
     */
    method GetMetrics(sid: string) returns (r: Result<map<string, int>>)
      ensures r.Ok? <==> AllWhole(redis.Get(sid).metrics.fields)
      ensures r.Ok? ==> r.value.Keys == redis.Get(sid).metrics.fields.Keys
      ensures r.Ok? ==> forall f :: f in r.value ==> r.value[f] as real == redis.Get(sid).metrics.fields[f]
    {
      var t := redis.Get(sid).metrics.fields;
      var rest := t.Keys;
      var out: map<string, int> := map[];
      while rest != {}
        invariant rest <= t.Keys
        invariant out.Keys == t.Keys - rest
        invariant forall f :: f in out ==> out[f] as real == t[f]
        invariant forall f :: f in out ==> t[f] == t[f].Floor as real
        decreases |rest|
      {
        assert (forall x :: x !in rest) ==> rest == {};
        var f :| f in rest;
        match ToInt(t[f])
        case Err(e) =>
          return Err(e);
        case Ok(v) =>
          out := out[f := v];
        rest := rest - {f};
      }
      r := Ok(out);
    }

    method SaveTextDraft(sid: string, taskType: string, rawText: string)
      modifies redis
      ensures redis.Get(sid) == old(redis.Get(sid)).(drafts := old(redis.Get(sid)).drafts[taskType := rawText])
      ensures SameExcept(old(redis.sessions), redis.sessions, sid)
    {
      var repo := new Documents.DocumentServiceSync(redis);
      repo.SaveTextDraft(sid, taskType, rawText);
    }

    method GetTextDraft(sid: string, taskType: string) returns (text: Option<string>)
      ensures text.Some? <==> taskType in redis.Get(sid).drafts
      ensures text.Some? ==> text.value == redis.Get(sid).drafts[taskType]
    {
      var repo := new Documents.DocumentServiceAsync(redis);
      text := repo.GetTextDraft(sid, taskType);
    }

    method UpdateFeedbackStats(sid: string, similarity: Option<real>, distance: Option<int>, action: string)
      modifies redis
      ensures redis.Get(sid) == old(redis.Get(sid)).(metrics :=
                Hash(Metrics.FeedbackStats(old(redis.Get(sid).metrics.fields), similarity, distance, action)))
      ensures SameExcept(old(redis.sessions), redis.sessions, sid)
    {
      var repo := new Metrics.MetricsServiceAsync(redis);
      repo.UpdateFeedbackStats(sid, similarity, distance, action);
    }

    method GetNextChunkIndex(sid: string) returns (ticket: int)
      modifies redis
      ensures ticket == old(redis.Get(sid).chunkCount)
      ensures redis.Get(sid) == old(redis.Get(sid)).(chunkCount := ticket + 1)
      ensures SameExcept(old(redis.sessions), redis.sessions, sid)
    {
      var repo := new Conversation.ConversationRepositoryAsync(redis);
      ticket := repo.GetNextChunkIndex(sid);
    }

    method AddWarning(sid: string, warnings: seq<string>, chunkIndex: int, now: string)
      modifies redis
      ensures warnings == [] ==> redis.sessions == old(redis.sessions)
      ensures warnings != [] ==> redis.Get(sid) == old(redis.Get(sid)).(warnings :=
                Hash(old(redis.Get(sid)).warnings.fields[chunkIndex := Entry(chunkIndex, now, warnings)]))
      ensures SameExcept(old(redis.sessions), redis.sessions, sid)
    {
      var repo := new Notification.NotificationServiceSync(redis);
      repo.AddWarning(sid, warnings, chunkIndex, now);
    }

    method GetWarnings(sid: string, chunkIndex: Option<int>) returns (r: seq<Entry>, ghost fields: seq<int>)
      ensures chunkIndex.Some? ==> r == Notification.Pinpoint(redis.Get(sid).warnings.fields, chunkIndex.value)
      ensures chunkIndex.None? ==> |r| == |fields|
      ensures chunkIndex.None? ==> forall k :: k in fields <==> k in Notification.Readable(redis.Get(sid).warnings.fields)
      ensures chunkIndex.None? ==> forall i :: 0 <= i < |r| ==>
                fields[i] in redis.Get(sid).warnings.fields && r[i] == redis.Get(sid).warnings.fields[fields[i]]
    {
      var repo := new Notification.NotificationServiceAsync(redis);
      r, fields := repo.GetWarnings(sid, chunkIndex);
    }

    method AddSafetyAlert(sid: string, alerts: seq<string>, chunkIndex: int, now: string)
      modifies redis
      ensures alerts == [] ==> redis.sessions == old(redis.sessions)
      ensures alerts != [] ==> redis.Get(sid) == old(redis.Get(sid)).(safety :=
                Hash(old(redis.Get(sid)).safety.fields[chunkIndex := Entry(chunkIndex, now, alerts)]))
      ensures SameExcept(old(redis.sessions), redis.sessions, sid)
    {
      var repo := new Notification.NotificationServiceSync(redis);
      repo.AddSafetyAlert(sid, alerts, chunkIndex, now);
    }

    method GetSafetyAlerts(sid: string, chunkIndex: Option<int>) returns (r: seq<Entry>, ghost fields: seq<int>)
      ensures chunkIndex.Some? ==> r == Notification.Pinpoint(redis.Get(sid).safety.fields, chunkIndex.value)
      ensures chunkIndex.None? ==> |r| == |fields|
      ensures chunkIndex.None? ==> forall k :: k in fields <==> k in Notification.Readable(redis.Get(sid).safety.fields)
      ensures chunkIndex.None? ==> forall i :: 0 <= i < |r| ==>
                fields[i] in redis.Get(sid).safety.fields && r[i] == redis.Get(sid).safety.fields[fields[i]]
    {
      var repo := new Notification.NotificationServiceAsync(redis);
      r, fields := repo.GetSafetyAlerts(sid, chunkIndex);
    }

    method ClearSession(sid: string)
      modifies redis
      ensures redis.Get(sid) == Fresh()
      ensures SameExcept(old(redis.sessions), redis.sessions, sid)
    {
      var repo := new Session.SessionRepositoryAsync(redis);
      repo.ClearSession(sid);
    }
  }
}
