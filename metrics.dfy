/**
 * Session metrics: the hash `session:{id}:metrics` of running totals that
 * latency, guardrail and feedback statistics are added into.
 */
module Metrics {
  import opened Common
  import opened Store

  /** A metric value as Python passes it: an `int` or a `float` (modelled exactly, as a rational). */
  datatype Number = IntNum(i: int) | FloatNum(f: real)

  function ValueOf(n: Number): real
  {
    match n
    case IntNum(i) => i as real
    case FloatNum(f) => f
  }

  /** `update_metrics` accepts a dict of values or a single value. */
  datatype MetricsArg = Fields(values: map<string, Number>) | Single(n: Number)

  /** Python truthiness: an empty dict, `0` and `0.0` are false. */
  predicate Falsy(m: MetricsArg)
  {
    match m
    case Fields(vs) => |vs| == 0
    case Single(n) => ValueOf(n) == 0.0
  }

  /** A hash field that was never incremented reads as 0. */
  function Total(t: map<string, real>, f: string): real
  {
    if f in t then t[f] else 0.0
  }

  /** What the dict case adds to field `f`: its value when present and non-zero. */
  function Increment(values: map<string, Number>, f: string): real
  {
    if f in values && ValueOf(values[f]) != 0.0 then ValueOf(values[f]) else 0.0
  }

  /** HINCRBY / HINCRBYFLOAT of `field` by `by`. */
  function HIncr(t: map<string, real>, field: string, amount: real): (r: map<string, real>)
    ensures Total(r, field) == Total(t, field) + amount
    ensures forall f :: f != field ==> Total(r, f) == Total(t, f) && (f in r <==> f in t)
    ensures field in r
  {
    t[field := Total(t, field) + amount]
  }

  /** A stored hash value: a numeric string (its number) or any other text. */
  datatype RawValue = Numeric(x: real) | NonNumeric(text: string)

  datatype Parsed = IntValue(i: int) | FloatValue(f: real) | TextValue(text: string)

  /** `_parse_redis_value`: integral numbers become ints, other numbers stay floats, text is returned as is. */
  function ParseRedisValue(v: RawValue): (r: Parsed)
    ensures v.NonNumeric? ==> r == TextValue(v.text)
    ensures v.Numeric? ==> (r.IntValue? <==> v.x == v.x.Floor as real)
    ensures v.Numeric? && r.IntValue? ==> r.i as real == v.x
    ensures v.Numeric? && !r.IntValue? ==> r == FloatValue(v.x)
  {
    match v
    case NonNumeric(t) => TextValue(t)
    case Numeric(x) => if x == x.Floor as real then IntValue(x.Floor) else FloatValue(x)
  }

  class MetricsServiceSync {
    const redis: Redis

    constructor(redis: Redis)
      ensures this.redis == redis
    {
      this.redis := redis;
    }

    /**
     * Adds new chunk metrics into the session totals. A falsy argument, or a
     * single value without a (non-empty) field name, changes nothing; each
     * non-zero dict entry is added to its own field; a single value is added
     * to the named field.
     */
    method UpdateMetrics(sid: string, metrics: MetricsArg, field: Option<string>)
      modifies redis
      ensures redis.Get(sid) == old(redis.Get(sid)).(metrics := Hash(redis.Get(sid).metrics.fields))
      ensures SameExcept(old(redis.sessions), redis.sessions, sid)
      ensures Falsy(metrics) || (metrics.Single? && (field.None? || field.value == "")) ==>
                redis.Get(sid) == old(redis.Get(sid))
      ensures !Falsy(metrics) && metrics.Fields? ==> forall f ::
                Total(redis.Get(sid).metrics.fields, f) == Total(old(redis.Get(sid).metrics.fields), f) + Increment(metrics.values, f)
                && (f in redis.Get(sid).metrics.fields <==> f in old(redis.Get(sid).metrics.fields) || Increment(metrics.values, f) != 0.0)
      ensures !Falsy(metrics) && metrics.Single? && field.Some? && field.value != "" ==>
                redis.Get(sid).metrics.fields == HIncr(old(redis.Get(sid).metrics.fields), field.value, ValueOf(metrics.n))
    {
      if Falsy(metrics) {
        return;
      }
      if field.None? && !metrics.Fields? {
        return;
      }
      var st := redis.Get(sid);
      match metrics
      case Fields(values) =>
        var totals := st.metrics.fields;
        var rest := values.Keys;
        while rest != {}
          invariant rest <= values.Keys
          invariant forall f :: f in rest ==> Total(totals, f) == Total(st.metrics.fields, f) && (f in totals <==> f in st.metrics.fields)
          invariant forall f :: f !in rest ==>
                      Total(totals, f) == Total(st.metrics.fields, f) + Increment(values, f)
                      && (f in totals <==> f in st.metrics.fields || Increment(values, f) != 0.0)
          decreases |rest|
        {
          assert (forall x :: x !in rest) ==> rest == {};
          var f :| f in rest;
          if ValueOf(values[f]) != 0.0 {
            totals := HIncr(totals, f, ValueOf(values[f]));
          }
          rest := rest - {f};
        }
        redis.sessions := redis.sessions[sid := st.(metrics := Hash(totals))];
      case Single(n) =>
        if field.value != "" {
          redis.sessions := redis.sessions[sid := st.(metrics := Hash(HIncr(st.metrics.fields, field.value, ValueOf(n))))];
        }
    }
  }

  /**
   * The totals after one feedback event: `feedback_indc` always moves by one;
   * then `accept_count` or `reject_count`, or for an edit with both metrics
   * the similarity and distance totals and `edit_count`.
   */
  function FeedbackStats(t: map<string, real>, similarity: Option<real>, distance: Option<int>, action: string): map<string, real>
  {
    var t1 := HIncr(t, "feedback_indc", 1.0);
    if action == "accept" then HIncr(t1, "accept_count", 1.0)
    else if action == "reject" then HIncr(t1, "reject_count", 1.0)
    else if action == "edit" && similarity.Some? && distance.Some? then
      HIncr(HIncr(HIncr(t1, "total_similarity", similarity.value), "total_edit_distance", distance.value as real), "edit_count", 1.0)
    else t1
  }

  /** Which counter each action moves, besides the indicator. */
  lemma FeedbackStatsCounters(t: map<string, real>, similarity: Option<real>, distance: Option<int>, action: string)
    ensures var r := FeedbackStats(t, similarity, distance, action);
      && Total(r, "feedback_indc") == Total(t, "feedback_indc") + 1.0
      && Total(r, "accept_count") == Total(t, "accept_count") + (if action == "accept" then 1.0 else 0.0)
      && Total(r, "reject_count") == Total(t, "reject_count") + (if action == "reject" then 1.0 else 0.0)
      && Total(r, "edit_count") == Total(t, "edit_count")
           + (if action == "edit" && similarity.Some? && distance.Some? then 1.0 else 0.0)
      && (action == "edit" && similarity.Some? && distance.Some? ==>
            Total(r, "total_similarity") == Total(t, "total_similarity") + similarity.value
            && Total(r, "total_edit_distance") == Total(t, "total_edit_distance") + distance.value as real)
      && (forall f :: f !in {"feedback_indc", "accept_count", "reject_count", "edit_count", "total_similarity", "total_edit_distance"}
            ==> Total(r, f) == Total(t, f))
  {
  }

  class MetricsServiceAsync {
    const redis: Redis

    constructor(redis: Redis)
      ensures this.redis == redis
    {
      this.redis := redis;
    }

    /** HGETALL with every value converted by `_parse_redis_value`. */
    method GetMetrics(sid: string) returns (r: map<string, Parsed>)
      ensures r.Keys == redis.Get(sid).metrics.fields.Keys
      ensures forall f :: f in r ==> r[f] == ParseRedisValue(Numeric(redis.Get(sid).metrics.fields[f]))
    {
      var t := redis.Get(sid).metrics.fields;
      r := map f | f in t :: ParseRedisValue(Numeric(t[f]));
    }

    method UpdateFeedbackStats(sid: string, similarity: Option<real>, distance: Option<int>, action: string)
      modifies redis
      ensures redis.Get(sid) == old(redis.Get(sid)).(metrics := Hash(FeedbackStats(old(redis.Get(sid).metrics.fields), similarity, distance, action)))
      ensures SameExcept(old(redis.sessions), redis.sessions, sid)
    {
      var st := redis.Get(sid);
      redis.sessions := redis.sessions[sid := st.(metrics := Hash(FeedbackStats(st.metrics.fields, similarity, distance, action)))];
    }
  }
}
