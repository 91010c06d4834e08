/**
 * `PipelineSchema`: the records the training-data pipeline writes when it
 * unrolls a session log, one per chunk index: the chat turns of the history
 * so far, the note built before the chunk (the context) and the items the
 * chunk added (the target), for the chosen and the rejected note alike.
 */
module PipelineSchema {
  import opened Common
  import opened Document

  /** `ParsedHistoryTurn.role`: one of three literals. */
  datatype HistoryRole = User | Assistant | System

  function RoleName(r: HistoryRole): string
  {
    match r
    case User => "user"
    case Assistant => "assistant"
    case System => "system"
  }

  /** Validating a role: an absent role takes the default `user`; text other than the three literals is refused. */
  function ParseRole(role: Option<string>): (r: Option<HistoryRole>)
    ensures role.None? ==> r == Some(User)
    ensures role.Some? ==> (r.Some? <==> role.value == "user" || role.value == "assistant" || role.value == "system")
    ensures role.Some? && r.Some? ==> RoleName(r.value) == role.value
  {
    match role
    case None => Some(User)
    case Some(s) =>
      if s == "user" then Some(User)
      else if s == "assistant" then Some(Assistant)
      else if s == "system" then Some(System)
      else None
  }

  /** Every role survives a round trip through its literal. */
  lemma RoleRoundTrip(r: HistoryRole)
    ensures ParseRole(Some(RoleName(r))) == Some(r)
  {
  }

  /** One chat turn of a parsed record, `{"role": "user", "content": "DOCTOR: ..."}`. */
  datatype ParsedHistoryTurn = ParsedHistoryTurn(role: HistoryRole, content: string)

  /** `ParsedHistoryTurn(role=..., content=...)`: refused exactly when the role is not one of the literals. */
  function NewHistoryTurn(role: Option<string>, content: string): (r: Option<ParsedHistoryTurn>)
    ensures r.Some? <==> ParseRole(role).Some?
    ensures r.Some? ==> r.value.content == content && (role.None? ==> r.value.role == User)
  {
    match ParseRole(role)
    case Some(parsed) => Some(ParsedHistoryTurn(parsed, content))
    case None => None
  }

  /**
   * A note item as the pipeline hands it on: its text and, when the key is
   * present, `source_chunk_index`.
   */
  datatype ItemDict = ItemDict(text: string, source: Option<int>)

  /** A note as a dict of the four section lists. */
  datatype SoapSections = SoapSections(subjective: seq<ItemDict>, objective: seq<ItemDict>,
                                       assessment: seq<ItemDict>, plan: seq<ItemDict>)
  {
    function Get(sec: Section): seq<ItemDict>
    {
      match sec
      case Subjective => subjective
      case Objective => objective
      case Assessment => assessment
      case Plan => plan
    }

    /** The same note with one section replaced. */
    function With(sec: Section, items: seq<ItemDict>): (r: SoapSections)
      ensures r.Get(sec) == items
      ensures forall other: Section :: other != sec ==> r.Get(other) == Get(other)
    {
      match sec
      case Subjective => this.(subjective := items)
      case Objective => this.(objective := items)
      case Assessment => this.(assessment := items)
      case Plan => this.(plan := items)
    }
  }

  /** `SOAPNote().model_dump()`: the four sections, each empty. */
  function EmptySections(): (r: SoapSections)
    ensures forall sec: Section :: r.Get(sec) == []
  {
    SoapSections([], [], [], [])
  }

  /** Two notes agreeing on every section are equal. */
  lemma SectionsExtensionality(a: SoapSections, b: SoapSections)
    requires forall sec: Section :: a.Get(sec) == b.Get(sec)
    ensures a == b
  {
    assert a.Get(Subjective) == b.Get(Subjective) && a.Get(Objective) == b.Get(Objective);
    assert a.Get(Assessment) == b.Get(Assessment) && a.Get(Plan) == b.Get(Plan);
  }

  /** The dump of a validated note: every item carries its chunk. */
  function NoteDump(n: Note): (r: SoapSections)
    ensures forall sec: Section :: |r.Get(sec)| == |n.Get(sec)|
    ensures forall sec: Section, i :: 0 <= i < |r.Get(sec)| ==>
              r.Get(sec)[i] == ItemDict(n.Get(sec)[i].text, Some(n.Get(sec)[i].sourceChunk))
  {
    SoapSections(DumpItems(n.subjective), DumpItems(n.objective), DumpItems(n.assessment), DumpItems(n.plan))
  }

  function DumpItems(items: seq<Item>): (r: seq<ItemDict>)
    ensures |r| == |items|
    ensures forall i :: 0 <= i < |items| ==> r[i] == ItemDict(items[i].text, Some(items[i].sourceChunk))
  {
    seq(|items|, i requires 0 <= i < |items| => ItemDict(items[i].text, Some(items[i].sourceChunk)))
  }

  /** A dict-valued field of a record: `{}`, or a four-section note. Only the note is truthy. */
  datatype NoteField = EmptyDict | SectionsDict(sections: SoapSections)

  /**
   * What is passed as `history`: a list of turns, or the pair
   * `(turns, transcript)` that `format_history_upto` returns.
   */
  datatype HistoryArg = TurnList(turns: seq<ParsedHistoryTurn>)
                      | TurnsAndTranscript(turns: seq<ParsedHistoryTurn>, transcript: string)

  /**
   * The keyword arguments of `ParsedEntry(...)`; `None` is an argument not
   * given, and `extra` names any keyword the schema does not declare.
   */
  datatype EntryArgs = EntryArgs(id: string, sessionId: string, chunkIndex: int,
                                 taskType: Option<string>, systemPrompt: Option<string>,
                                 history: Option<HistoryArg>,
                                 previousNote: Option<NoteField>, previousNoteRejected: Option<NoteField>,
                                 suffixPrompt: Option<string>,
                                 completion: Option<NoteField>, completionRejected: Option<NoteField>,
                                 action: Option<string>, sessionStart: Option<string>,
                                 createdAt: Option<string>, version: Option<string>,
                                 extra: set<string>)

  /** One unrolled chunk record. */
  datatype ParsedEntry = ParsedEntry(id: string, sessionId: string, chunkIndex: nat,
                                     taskType: string, systemPrompt: string,
                                     history: seq<ParsedHistoryTurn>,
                                     previousNote: NoteField, previousNoteRejected: NoteField,
                                     suffixPrompt: string,
                                     completion: NoteField, completionRejected: NoteField,
                                     action: Option<string>, sessionStart: Option<string>,
                                     createdAt: Option<string>, version: Option<string>)

  function OrDefault<T>(given: Option<T>, default: T): T
  {
    if given.Some? then given.value else default
  }

  /** Why validation refuses the arguments, if it does. */
  function EntryError(args: EntryArgs): (r: Option<string>)
    ensures r.None? <==> args.extra == {} && args.chunkIndex >= 0
                         && !(args.history.Some? && args.history.value.TurnsAndTranscript?)
  {
    if args.extra != {} then Some("extra_forbidden")
    else if args.chunkIndex < 0 then Some("greater_than_equal")
    else if args.history.Some? && args.history.value.TurnsAndTranscript? then Some("model_type")
    else None
  }

  /**
   * `ParsedEntry(...)`: unknown keywords, a negative chunk index and a
   * history that is not a list of turns are refused; omitted inputs and
   * targets take empty defaults and `task_type` defaults to `soap`.
   */
  function NewParsedEntry(args: EntryArgs): (r: Result<ParsedEntry>)
    ensures r.Ok? <==> EntryError(args).None?
    ensures r.Ok? ==> r.value.id == args.id && r.value.sessionId == args.sessionId
                      && r.value.chunkIndex == args.chunkIndex
    ensures r.Ok? && args.history.Some? ==> r.value.history == args.history.value.turns
  {
    match EntryError(args)
    case Some(e) => Err(e)
    case None =>
      Ok(ParsedEntry(args.id, args.sessionId, args.chunkIndex,
                     OrDefault(args.taskType, "soap"), OrDefault(args.systemPrompt, ""),
                     if args.history.Some? then args.history.value.turns else [],
                     OrDefault(args.previousNote, EmptyDict), OrDefault(args.previousNoteRejected, EmptyDict),
                     OrDefault(args.suffixPrompt, ""),
                     OrDefault(args.completion, EmptyDict), OrDefault(args.completionRejected, EmptyDict),
                     args.action, args.sessionStart, args.createdAt, args.version))
  }

  /** The arguments naming only the required fields. */
  function RequiredOnly(id: string, sessionId: string, chunkIndex: int): EntryArgs
  {
    EntryArgs(id, sessionId, chunkIndex, None, None, None, None, None, None, None, None,
              None, None, None, None, {})
  }

  /** With only the required fields, every other field takes its default. */
  lemma DefaultsApply(id: string, sessionId: string, chunkIndex: nat)
    ensures NewParsedEntry(RequiredOnly(id, sessionId, chunkIndex))
            == Ok(ParsedEntry(id, sessionId, chunkIndex, "soap", "", [], EmptyDict, EmptyDict, "",
                              EmptyDict, EmptyDict, None, None, None, None))
  {
  }

  /** A negative chunk index is refused whatever else is given. */
  lemma NegativeChunkRefused(args: EntryArgs)
    requires args.chunkIndex < 0
    ensures NewParsedEntry(args).Err?
  {
  }

  /** An undeclared keyword is refused whatever else is given. */
  lemma ExtraKeyRefused(args: EntryArgs, key: string)
    requires key in args.extra
    ensures NewParsedEntry(args).Err?
  {
  }
}
