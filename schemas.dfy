/**
 * The request, response and transcript records of the backend: dialogue
 * turns, transcription segments, the literal-constrained task and feedback
 * types, and the feedback request's cross-field validation.
 */
module Schemas {
  import opened Common
  import opened Document

  /** One utterance. The creation timestamp is not modelled. */
  datatype DialogueTurn = DialogueTurn(role: string, content: string)

  /** `"\n".join(f"{t.role}: {t.content}" for t in turns)`: a dialogue as plain text, one turn per line. */
  function DialogueText(turns: seq<DialogueTurn>): string
  {
    Join("\n", seq(|turns|, i requires 0 <= i < |turns| => turns[i].role + ": " + turns[i].content))
  }

  /** One chat message sent to the language model, or written to a training record. */
  datatype Message = Message(role: string, content: string)

  /** One recognised word; `confidence` is in hundredths (0.87 is 87). */
  datatype WordInfo = WordInfo(word: string, start: real, end: real, confidence: int)

  /** One diarised segment as the UI receives it. */
  datatype SegmentInfo = SegmentInfo(id: int, start: real, end: real, text: string,
                                     speaker: string, avgConfidence: int, words: seq<WordInfo>)

  /** `ScribeRequest.task_type`. */
  datatype TaskType = Soap | Discharge | Referral | Certification

  function TaskTypeName(t: TaskType): string
  {
    match t
    case Soap => "soap"
    case Discharge => "discharge"
    case Referral => "referral"
    case Certification => "certification"
  }

  /** The value a request gets when it names no task type. */
  const DefaultTaskType: TaskType := Soap

  /** Validation of the literal: exactly the four names are accepted. */
  function ParseTaskType(s: string): (r: Option<TaskType>)
    ensures r.Some? <==> s in {"soap", "discharge", "referral", "certification"}
    ensures r.Some? ==> TaskTypeName(r.value) == s
  {
    if s == "soap" then Some(Soap)
    else if s == "discharge" then Some(Discharge)
    else if s == "referral" then Some(Referral)
    else if s == "certification" then Some(Certification)
    else None
  }

  /** `FeedbackRequest.feedback_type`. */
  datatype FeedbackType = ThumbsUp | ThumbsDown | Edit

  function FeedbackTypeName(t: FeedbackType): string
  {
    match t
    case ThumbsUp => "thumbs_up"
    case ThumbsDown => "thumbs_down"
    case Edit => "edit"
  }

  function ParseFeedbackType(s: string): (r: Option<FeedbackType>)
    ensures r.Some? <==> s in {"thumbs_up", "thumbs_down", "edit"}
    ensures r.Some? ==> FeedbackTypeName(r.value) == s
  {
    if s == "thumbs_up" then Some(ThumbsUp)
    else if s == "thumbs_down" then Some(ThumbsDown)
    else if s == "edit" then Some(Edit)
    else None
  }

  /** An edited summary: plain text, a structured note, or a free-form mapping. */
  datatype Summary = TextSummary(text: string) | NoteSummary(note: Note) | DictSummary(fields: map<string, string>)

  /** Python truthiness of the summary: empty text and an empty mapping are false; a model instance is always true. */
  predicate Truthy(s: Summary)
  {
    match s
    case TextSummary(t) => t != ""
    case NoteSummary(_) => true
    case DictSummary(m) => |m| > 0
  }

  datatype FeedbackRequest = FeedbackRequest(interactionId: string, feedbackType: FeedbackType,
                                             editedSummary: Option<Summary>,
                                             originalModelId: string, taskType: string)

  const EditWithoutSummary := "Edited summary is required when feedback_type is edit"

  /**
   * Construction of a `FeedbackRequest`: the literal check on the feedback
   * type, then the validator that an edit carries a non-empty edited summary.
   */
  function NewFeedbackRequest(interactionId: string, feedbackType: string, editedSummary: Option<Summary>,
                              originalModelId: string, taskType: string): (r: Result<FeedbackRequest>)
    ensures r.Ok? <==> ParseFeedbackType(feedbackType).Some?
                       && (feedbackType == "edit" ==> editedSummary.Some? && Truthy(editedSummary.value))
    ensures r.Ok? ==> FeedbackTypeName(r.value.feedbackType) == feedbackType && r.value.editedSummary == editedSummary
    ensures r.Err? && ParseFeedbackType(feedbackType).Some? ==> r.error == EditWithoutSummary
  {
    match ParseFeedbackType(feedbackType)
    case None => Err("feedback_type must be one of thumbs_up, thumbs_down, edit")
    case Some(t) =>
      if t == Edit && !(editedSummary.Some? && Truthy(editedSummary.value)) then Err(EditWithoutSummary)
      else Ok(FeedbackRequest(interactionId, t, editedSummary, originalModelId, taskType))
  }
}
