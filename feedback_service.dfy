/**
 * `FeedbackService`: a clinician's verdict on a generated note becomes a
 * training record. Accepted notes go to the SFT file, rejected ones only to
 * the statistics, and edits to the SFT or DPO file depending on how much the
 * edit changed. At the end of a session the aggregated counters are turned
 * into one summary record of the metrics log.
 */
module FeedbackService {
  import opened Common
  import opened Schemas
  import opened Document
  import opened Store
  import opened Metrics
  import opened Prompts
  import opened Conversation

  // ---------------------------------------------------------------------
  // `_calculate_edit_metrics`
  // ---------------------------------------------------------------------

  function Max(a: nat, b: nat): nat { if a >= b then a else b }

  function Min3(a: nat, b: nat, c: nat): nat
  {
    if a <= b && a <= c then a else if b <= c then b else c
  }

  /** The Levenshtein distance: the fewest single-character insertions, deletions and substitutions. */
  function EditDistance(a: string, b: string): nat
    decreases |a| + |b|
  {
    if a == [] then |b|
    else if b == [] then |a|
    else Min3(EditDistance(a[1..], b[1..]) + (if a[0] == b[0] then 0 else 1),
              EditDistance(a[1..], b) + 1,
              EditDistance(a, b[1..]) + 1)
  }

  /** Never more edits than the longer text has characters. */
  lemma {:induction false} EditDistanceAtMostLonger(a: string, b: string)
    ensures EditDistance(a, b) <= Max(|a|, |b|)
    decreases |a| + |b|
  {
    if a != [] && b != [] {
      EditDistanceAtMostLonger(a[1..], b[1..]);
    }
  }

  /** At least as many edits as the lengths differ. */
  lemma {:induction false} EditDistanceAtLeastGap(a: string, b: string)
    ensures EditDistance(a, b) >= |a| - |b| && EditDistance(a, b) >= |b| - |a|
    decreases |a| + |b|
  {
    if a != [] && b != [] {
      EditDistanceAtLeastGap(a[1..], b[1..]);
      EditDistanceAtLeastGap(a[1..], b);
      EditDistanceAtLeastGap(a, b[1..]);
    }
  }

  /** A text is no edits away from itself. */
  lemma {:induction false} EditDistanceSelf(a: string)
    ensures EditDistance(a, a) == 0
  {
    if a != [] {
      EditDistanceSelf(a[1..]);
    }
  }

  /** `round(x, 4)`: the nearest multiple of 1/10000, halves to even. */
  function Round4(x: real): real
  {
    RoundHalfEven(x * 10000.0) as real / 10000.0
  }

  /** The edit distance and the similarity `round(1 - distance / longer length, 4)`. */
  datatype EditMetrics = EditMetrics(distance: nat, similarity: real)

  /** `_calculate_edit_metrics`: an empty side gives zero distance and zero similarity. */
  function CalculateEditMetrics(original: string, edited: string): (r: EditMetrics)
    ensures original == "" || edited == "" ==> r == EditMetrics(0, 0.0)
    ensures original != "" && edited != "" ==> r.distance == EditDistance(original, edited)
  {
    if original == "" || edited == "" then EditMetrics(0, 0.0)
    else
      var dist := EditDistance(original, edited);
      EditMetrics(dist, Similarity(dist, Max(|original|, |edited|)))
  }

  /** `round(1 - dist / max_len, 4)`, and 1.0 for two empty texts. */
  function Similarity(dist: nat, maxLen: nat): real
  {
    Round4(if maxLen == 0 then 1.0 else 1.0 - dist as real / maxLen as real)
  }

  /** A share of a positive whole lies between 0 and 1, and is 1 for the whole. */
  lemma RatioInUnit(part: real, whole: real)
    requires 0.0 < whole && 0.0 <= part <= whole
    ensures 0.0 <= part / whole <= 1.0
    ensures part == whole ==> part / whole == 1.0
  {
    var ratio := part / whole;
    assert ratio * whole == part;
    if part == whole {
      assert (ratio - 1.0) * whole == 0.0;
    }
  }

  /** A distance up to the longer length scores between 0 and 1: 1 for no edit, 0 for the most. */
  lemma SimilarityBounds(dist: nat, maxLen: nat)
    requires 0 < maxLen && dist <= maxLen
    ensures 0.0 <= Similarity(dist, maxLen) <= 1.0
    ensures dist == 0 ==> Similarity(dist, maxLen) == 1.0
    ensures dist == maxLen ==> Similarity(dist, maxLen) == 0.0
  {
    var ratio := dist as real / maxLen as real;
    RatioInUnit(dist as real, maxLen as real);
    var raw := 1.0 - ratio;
    RoundMonotone(0.0, raw * 10000.0);
    RoundMonotone(raw * 10000.0, 10000.0);
    RoundWhole(0);
    RoundWhole(10000);
  }

  /** Similarity lies between 0 and 1. */
  lemma SimilarityInRange(original: string, edited: string)
    ensures 0.0 <= CalculateEditMetrics(original, edited).similarity <= 1.0
  {
    if original != "" && edited != "" {
      EditDistanceAtMostLonger(original, edited);
      SimilarityBounds(EditDistance(original, edited), Max(|original|, |edited|));
    }
  }

  /** An unchanged non-empty note has distance 0 and similarity 1. */
  lemma UnchangedSimilarityOne(original: string)
    requires original != ""
    ensures CalculateEditMetrics(original, original) == EditMetrics(0, 1.0)
  {
    EditDistanceSelf(original);
    SimilarityBounds(0, |original|);
  }

  /** An edit needing as many steps as the longer text has characters scores 0. */
  lemma DistanceAtLongerLengthScoresZero(original: string, edited: string)
    requires original != "" && edited != ""
    requires EditDistance(original, edited) == Max(|original|, |edited|)
    ensures CalculateEditMetrics(original, edited).similarity == 0.0
  {
    SimilarityBounds(EditDistance(original, edited), Max(|original|, |edited|));
  }

  // ---------------------------------------------------------------------
  // `save_feedback`
  // ---------------------------------------------------------------------

  /** The metrics `save_feedback` returns: both None unless the action is an edit. */
  datatype FeedbackMetrics = FeedbackMetrics(similarity: Option<real>, distance: Option<nat>)

  /** The training record written for an accepted or edited note. */
  datatype TrainingRecord = TrainingRecord(
    sessionId: string, taskType: string, action: string,
    systemPrompt: string, history: string, previousNote: Option<Note>, suffixPrompt: string,
    metrics: FeedbackMetrics, chosen: string, rejected: string)

  /** Where a record goes. */
  datatype Route = NoRecord | SftFile | DpoFile

  /** What a call ends with: the metrics it returns, or the `TypeError` of comparing `None` with a number. */
  datatype Outcome = Returned(metrics: FeedbackMetrics) | Raised

  /** `original_output if action == "accept" else (edited_output or original_output)`. */
  function ChosenOutput(action: string, original: string, edited: Option<string>): string
  {
    if action == "accept" then original
    else if edited.Some? && edited.value != "" then edited.value
    else original
  }

  function MetricsFor(action: string, original: string, edited: Option<string>): FeedbackMetrics
  {
    if action == "edit" then
      var m := CalculateEditMetrics(original, ChosenOutput(action, original, edited));
      FeedbackMetrics(Some(m.similarity), Some(m.distance))
    else FeedbackMetrics(None, None)
  }

  /** SFT for a small (>= 0.9) or a complete (< 0.7) rewrite, DPO in between. */
  function EditRoute(similarity: real): Route
  {
    if similarity >= 0.9 || similarity < 0.7 then SftFile else DpoFile
  }

  /** The file an action's record goes to; only an edit carries a similarity. */
  function RouteOf(action: string, metrics: FeedbackMetrics): Option<Route>
  {
    if action == "reject" then Some(NoRecord)
    else if action == "accept" then Some(SftFile)
    else if metrics.similarity.Some? then Some(EditRoute(metrics.similarity.value))
    else None
  }

  /** The record `save_feedback` builds from the stored session. */
  function RecordOf(sid: string, taskType: string, original: string, edited: Option<string>, action: string,
                    st: SessionState): TrainingRecord
  {
    TrainingRecord(sid, taskType, action,
                   GetSystemPrompt(taskType), DialogueText(st.history),
                   if taskType != "soap" then st.soap else None,
                   GetSuffixPrompt(taskType, "[NOTE_CONTEXT]"),
                   MetricsFor(action, original, edited),
                   ChosenOutput(action, original, edited), original)
  }

  /** Accepting trains on the original, and an edit replaces it unless the edit is empty. */
  lemma ChosenIsEditUnlessEmpty(original: string, edited: Option<string>, action: string)
    ensures action == "accept" ==> ChosenOutput(action, original, edited) == original
    ensures action != "accept" && edited.Some? && edited.value != "" ==> ChosenOutput(action, original, edited) == edited.value
    ensures action != "accept" && (edited.None? || edited.value == "") ==> ChosenOutput(action, original, edited) == original
  {
  }

  /** Only an edit is scored, and its route is decided by the score alone. */
  lemma RoutingByAction(original: string, edited: Option<string>, action: string)
    ensures var m := MetricsFor(action, original, edited);
            (m.similarity.Some? <==> action == "edit")
            && (m.distance.Some? <==> action == "edit")
            && (action == "reject" ==> RouteOf(action, m) == Some(NoRecord))
            && (action == "accept" ==> RouteOf(action, m) == Some(SftFile))
            && (action == "edit" ==> RouteOf(action, m).Some? && RouteOf(action, m).value != NoRecord)
            && (action !in {"accept", "reject", "edit"} ==> RouteOf(action, m).None?)
  {
  }

  /** An unchanged edit goes to SFT; so does one sharing nothing with the original. */
  lemma EditExtremesGoToSft(original: string, edited: string)
    requires original != "" && edited != ""
    ensures original == edited ==> EditRoute(CalculateEditMetrics(original, edited).similarity) == SftFile
    ensures (EditDistance(original, edited) == Max(|original|, |edited|))
            ==> EditRoute(CalculateEditMetrics(original, edited).similarity) == SftFile
  {
    if original == edited {
      UnchangedSimilarityOne(original);
    }
    if EditDistance(original, edited) == Max(|original|, |edited|) {
      DistanceAtLongerLengthScoresZero(original, edited);
    }
  }

  /** An edit scoring in [0.7, 0.9) is a preference pair. */
  lemma PreferenceZone(similarity: real)
    ensures EditRoute(similarity) == DpoFile <==> 0.7 <= similarity < 0.9
  {
  }

  class FeedbackService {
    const redis: Redis
    const metricsService: MetricsServiceAsync
    const conversationService: ConversationRepositoryAsync
    /** The records appended to the SFT file and to the DPO file, in order. */
    var sft: seq<TrainingRecord>
    var dpo: seq<TrainingRecord>
    /** The session summaries appended to the metrics file, in order. */
    var metricsLog: seq<(string, SessionStats)>

    constructor(redis: Redis)
      ensures this.redis == redis && metricsService.redis == redis && conversationService.redis == redis
      ensures sft == [] && dpo == [] && metricsLog == []
    {
      this.redis := redis;
      metricsService := new MetricsServiceAsync(redis);
      conversationService := new ConversationRepositoryAsync(redis);
      sft := [];
      dpo := [];
      metricsLog := [];
    }

    /**
     * `save_feedback`: the statistics are updated for every action; then a
     * reject stops, an accept goes to SFT, and an edit is routed by its
     * similarity. An action outside the three reaches the similarity
     * comparison with `None` and raises, after the statistics update.
     */
    method SaveFeedback(sid: string, taskType: string, original: string, edited: Option<string>, action: string)
      returns (outcome: Outcome)
      requires metricsService.redis == redis
      modifies this, redis
      ensures redis.Get(sid) == old(redis.Get(sid)).(metrics := Hash(FeedbackStats(old(redis.Get(sid).metrics.fields),
                MetricsFor(action, original, edited).similarity, MetricsFor(action, original, edited).distance, action)))
      ensures SameExcept(old(redis.sessions), redis.sessions, sid)
      ensures var route := RouteOf(action, MetricsFor(action, original, edited));
              var record := RecordOf(sid, taskType, original, edited, action, old(redis.Get(sid)));
              && (route.None? ==> outcome == Raised && sft == old(sft) && dpo == old(dpo))
              && (route.Some? ==> outcome == Returned(MetricsFor(action, original, edited)))
              && (route == Some(NoRecord) ==> sft == old(sft) && dpo == old(dpo))
              && (route == Some(SftFile) ==> sft == old(sft) + [record] && dpo == old(dpo))
              && (route == Some(DpoFile) ==> sft == old(sft) && dpo == old(dpo) + [record])
    {
      var finalOutput := ChosenOutput(action, original, edited);
      var metrics := MetricsFor(action, original, edited);
      ghost var st := redis.Get(sid);
      metricsService.UpdateFeedbackStats(sid, metrics.similarity, metrics.distance, action);
      if action == "reject" {
        return Returned(metrics);
      }
      var history := redis.Get(sid).history;
      var prevNote := redis.Get(sid).soap;
      var record := TrainingRecord(sid, taskType, action,
                                   GetSystemPrompt(taskType), DialogueText(history),
                                   if taskType != "soap" then prevNote else None,
                                   GetSuffixPrompt(taskType, "[NOTE_CONTEXT]"),
                                   metrics, finalOutput, original);
      assert record == RecordOf(sid, taskType, original, edited, action, st);
      outcome := File(record, action, metrics);
    }

    /** The routing of a record that is not a rejection: accepted notes and small or complete rewrites to SFT, the rest to DPO. */
    method File(record: TrainingRecord, action: string, metrics: FeedbackMetrics) returns (outcome: Outcome)
      requires action != "reject"
      modifies this
      ensures var route := RouteOf(action, metrics);
              && (route.None? ==> outcome == Raised && sft == old(sft) && dpo == old(dpo))
              && (route.Some? ==> outcome == Returned(metrics))
              && (route == Some(SftFile) ==> sft == old(sft) + [record] && dpo == old(dpo))
              && (route == Some(DpoFile) ==> sft == old(sft) && dpo == old(dpo) + [record])
    {
      if action == "accept" {
        sft := sft + [record];
        return Returned(metrics);
      }
      if metrics.similarity.None? {
        return Raised;
      }
      if metrics.similarity.value >= 0.9 || metrics.similarity.value < 0.7 {
        sft := sft + [record];
      } else {
        dpo := dpo + [record];
      }
      outcome := Returned(metrics);
    }

    /**
     * `save_session_metrics`: nothing for a session without metrics;
     * otherwise a chunk ticket is drawn to count the chunks, and the summary
     * of the metrics hash, with one less than that ticket as the chunk
     * count, is appended to the metrics file.
     */
    method SaveSessionMetrics(sid: string)
      requires conversationService.redis == redis && metricsService.redis == redis
      modifies this, redis
      ensures sft == old(sft) && dpo == old(dpo)
      ensures SameExcept(old(redis.sessions), redis.sessions, sid)
      ensures var t := old(redis.Get(sid).metrics.fields);
              && (|t| == 0 ==> metricsLog == old(metricsLog) && redis.Get(sid) == old(redis.Get(sid)))
              && (|t| > 0 ==>
                    redis.Get(sid) == old(redis.Get(sid)).(chunkCount := old(redis.Get(sid).chunkCount) + 1)
                    && metricsLog == old(metricsLog)
                         + [(sid, SessionSummary(t, ChunksAsWritten(old(redis.Get(sid).chunkCount))).value)])
    {
      var metrics := metricsService.GetMetrics(sid);
      var t := redis.Get(sid).metrics.fields;
      if |metrics| == 0 {
        assert |t| == 0 by {
          assert t.Keys == metrics.Keys;
        }
        return;
      }
      assert |t| > 0 by {
        assert t.Keys == metrics.Keys;
      }
      var ticket := conversationService.GetNextChunkIndex(sid);
      var totalChunks := ticket - 1;
      metricsLog := metricsLog + [(sid, SessionSummary(t, totalChunks).value)];
    }
  }

  // ---------------------------------------------------------------------
  // `save_session_metrics`
  // ---------------------------------------------------------------------

  /** Python's `int(x)` on a float: truncation toward zero. */
  function Truncate(x: real): int
  {
    if x >= 0.0 then x.Floor else -((-x).Floor)
  }

  /** The human-feedback block, present only after some feedback. */
  datatype HumanFeedback = HumanFeedback(similarity: Option<real>, editDistance: Option<int>,
                                         acceptCount: int, rejectCount: int, editCount: int)

  /** The `stats` of a session summary record; `None` latencies when no chunk is counted. */
  datatype SessionStats = SessionStats(recall: real, precision: real, hallucinationRate: real,
                                       humanFeedback: Option<HumanFeedback>,
                                       avgChunkLatency: Option<real>, finalLatency: Option<real>)

  /** `matched / denominator`, or 0 when the denominator is not positive. */
  function Ratio(matched: int, denominator: int): (r: real)
    ensures denominator <= 0 ==> r == 0.0
    ensures denominator > 0 && 0 <= matched <= denominator ==> 0.0 <= r <= 1.0
  {
    if denominator > 0 then matched as real / denominator as real else 0.0
  }

  /**
   * The summary record of a session whose metrics hash is `t` and for whom
   * `chunks` is what the chunk count reads as; `None` when the hash is empty.
   */
  function SessionSummary(t: map<string, real>, chunks: int): Option<SessionStats>
  {
    if |t| == 0 then None
    else
      var transcriptCount := Truncate(Total(t, "transcript_count"));
      var summaryCount := Truncate(Total(t, "summary_count"));
      var matchedCount := Truncate(Total(t, "matched_count"));
      var recall := Ratio(matchedCount, transcriptCount);
      var precision := Ratio(matchedCount, summaryCount);
      var editCount := Truncate(Total(t, "edit_count"));
      var feedback :=
        if Total(t, "feedback_indc") > 0.0 then
          Some(HumanFeedback(if editCount > 0 then Some(Total(t, "total_similarity")) else None,
                             if editCount > 0 then Some(Truncate(Total(t, "total_edit_distance"))) else None,
                             Truncate(Total(t, "accept_count")), Truncate(Total(t, "reject_count")), editCount))
        else None;
      Some(SessionStats(Round4(recall), Round4(precision), Round4(1.0 - precision), feedback,
                        if chunks > 0 then Some(Total(t, "total_latency_ms") / chunks as real) else None,
                        if chunks > 0 then Some(Total(t, "final_e2e_latency_ms")) else None))
  }

  /** Recall and precision are 0 when nothing was found in the transcript or the summary. */
  lemma RatiosGuarded(t: map<string, real>, chunks: int)
    requires |t| > 0
    ensures Truncate(Total(t, "transcript_count")) <= 0 ==> SessionSummary(t, chunks).value.recall == 0.0
    ensures Truncate(Total(t, "summary_count")) <= 0 ==>
              SessionSummary(t, chunks).value.precision == 0.0
              && SessionSummary(t, chunks).value.hallucinationRate == 1.0
  {
    RoundWhole(0);
    RoundWhole(10000);
  }

  /** Feedback statistics appear exactly when some feedback was given. */
  lemma FeedbackBlockIffFeedback(t: map<string, real>, chunks: int)
    requires |t| > 0
    ensures SessionSummary(t, chunks).value.humanFeedback.Some? <==> Total(t, "feedback_indc") > 0.0
  {
  }

  /**
   * `total_chunks` as written: `get_next_chunk_index` issues a ticket and
   * returns the number issued before, and one is subtracted from that.
   */
  function ChunksAsWritten(ticketsIssued: int): int
  {
    ticketsIssued - 1
  }

  /** The number of chunks the session actually ticketed. */
  function ChunksIntended(ticketsIssued: int): int
  {
    ticketsIssued
  }

  /** With one chunk processed, the written count reports no chunk latency although one was recorded. */
  lemma SingleChunkLatencyLost(t: map<string, real>)
    requires "total_latency_ms" in t
    ensures SessionSummary(t, ChunksAsWritten(1)).value.avgChunkLatency == None
    ensures SessionSummary(t, ChunksIntended(1)).value.avgChunkLatency == Some(t["total_latency_ms"])
  {
  }

  /** With the intended count, the average latency is the total over the chunks ticketed. */
  lemma IntendedAverageLatency(t: map<string, real>, ticketsIssued: int)
    requires |t| > 0 && ticketsIssued > 0
    ensures SessionSummary(t, ChunksIntended(ticketsIssued)).value.avgChunkLatency
              == Some(Total(t, "total_latency_ms") / ticketsIssued as real)
    ensures SessionSummary(t, ChunksIntended(ticketsIssued)).value.avgChunkLatency.value * ticketsIssued as real
              == Total(t, "total_latency_ms")
  {
  }
}
