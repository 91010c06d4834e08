/**
 * `BuildDataset`: turning checked records into chat conversations for
 * training. A conversation is the system prompt (when there is one), the
 * history turns, one user message carrying the suffix prompt with the
 * context note injected, and the completion as the assistant's answer. A
 * preference pair shares everything but the notes.
 */
module BuildDataset {
  import opened Common
  import opened Schemas
  import opened PipelineSchema

  /** The marker a suffix template holds where the context note goes. */
  const NotePlaceholder: string := "[NOTE_CONTEXT]"

  /** Python's `s.replace(pat, rep)`: every non-overlapping occurrence, scanning from the left. */
  function ReplaceAll(s: string, pat: string, rep: string): string
    requires pat != []
    decreases |s|
  {
    if OccursAt(s, pat, 0) then rep + ReplaceAll(s[|pat|..], pat, rep)
    else if s == [] then []
    else [s[0]] + ReplaceAll(s[1..], pat, rep)
  }

  /** With no occurrence of the pattern, replacing changes nothing. */
  lemma {:induction false} ReplaceAbsent(s: string, pat: string, rep: string)
    requires pat != []
    requires forall j: nat :: !OccursAt(s, pat, j)
    ensures ReplaceAll(s, pat, rep) == s
    decreases |s|
  {
    if s != [] {
      assert !OccursAt(s, pat, 0);
      forall j: nat ensures !OccursAt(s[1..], pat, j) {
        assert !OccursAt(s, pat, j + 1);
        if j + |pat| <= |s[1..]| {
          assert s[1..][j..j + |pat|] == s[j + 1..j + 1 + |pat|];
        }
      }
      ReplaceAbsent(s[1..], pat, rep);
    }
  }

  /** An occurrence at the front is replaced, and the scan goes on after it. */
  lemma ReplaceAtFront(pat: string, rest: string, rep: string)
    requires pat != []
    ensures ReplaceAll(pat + rest, pat, rep) == rep + ReplaceAll(rest, pat, rep)
  {
    assert (pat + rest)[..|pat|] == pat;
    assert (pat + rest)[|pat|..] == rest;
  }

  /** Text without the pattern's first character passes through unchanged. */
  lemma {:induction false} ReplaceKeepsPlainPrefix(a: string, b: string, pat: string, rep: string)
    requires pat != []
    requires forall i :: 0 <= i < |a| ==> a[i] != pat[0]
    ensures ReplaceAll(a + b, pat, rep) == a + ReplaceAll(b, pat, rep)
  {
    if a != [] {
      var t := a + b;
      assert t[0] == a[0];
      assert !OccursAt(t, pat, 0) by {
        if |pat| <= |t| {
          assert t[..|pat|][0] == t[0];
        }
      }
      assert ReplaceAll(t, pat, rep) == [t[0]] + ReplaceAll(t[1..], pat, rep);
      assert t[1..] == a[1..] + b;
      ReplaceKeepsPlainPrefix(a[1..], b, pat, rep);
      assert [a[0]] + a[1..] == a;
    } else {
      assert a + b == b;
    }
  }

  /** The user message: the template with the context injected, or the context appended under a header. */
  function UserContent(suffixTemplate: string, contextText: string): string
  {
    if Contains(suffixTemplate, NotePlaceholder) then ReplaceAll(suffixTemplate, NotePlaceholder, contextText)
    else suffixTemplate + "\n\nContext:\n" + contextText
  }

  /** Without a placeholder the template is kept as is and the context follows the header. */
  lemma UserContentWithoutPlaceholder(suffixTemplate: string, contextText: string)
    requires !Contains(suffixTemplate, NotePlaceholder)
    ensures UserContent(suffixTemplate, contextText) == suffixTemplate + "\n\nContext:\n" + contextText
  {
  }

  /** A template holding the placeholder once, after plain text, gets the context in its place. */
  lemma UserContentInjects(before: string, after: string, contextText: string)
    requires forall i :: 0 <= i < |before| ==> before[i] != '['
    requires forall j: nat :: !OccursAt(after, NotePlaceholder, j)
    ensures UserContent(before + NotePlaceholder + after, contextText) == before + contextText + after
  {
    var t := before + NotePlaceholder + after;
    assert OccursAt(t, NotePlaceholder, |before|) by {
      assert t[|before|..|before| + |NotePlaceholder|] == NotePlaceholder;
    }
    OccursContains(t, NotePlaceholder, |before|);
    assert t == before + (NotePlaceholder + after);
    ReplaceKeepsPlainPrefix(before, NotePlaceholder + after, NotePlaceholder, contextText);
    ReplaceAtFront(NotePlaceholder, after, contextText);
    ReplaceAbsent(after, NotePlaceholder, contextText);
  }

  /** Truthiness of a dict-valued field: only a non-empty dict counts. */
  predicate Truthy(n: NoteField)
  {
    n.SectionsDict?
  }

  function TurnMessages(history: seq<ParsedHistoryTurn>): (r: seq<Message>)
    ensures |r| == |history|
    ensures forall i :: 0 <= i < |history| ==> r[i] == Message(RoleName(history[i].role), history[i].content)
  {
    seq(|history|, i requires 0 <= i < |history| => Message(RoleName(history[i].role), history[i].content))
  }

  /** The messages before the user message: the system prompt when non-empty, then the history turns. */
  function Head(systemPrompt: string, history: seq<ParsedHistoryTurn>): seq<Message>
  {
    (if systemPrompt != "" then [Message("system", systemPrompt)] else []) + TurnMessages(history)
  }

  /** The conversation `format_conversation` builds; `dumps` is `json.dumps(..., indent=2)`. */
  function Conversation(systemPrompt: string, history: seq<ParsedHistoryTurn>, suffixTemplate: string,
                        context: NoteField, completion: NoteField, includeAssistant: bool,
                        dumps: NoteField -> string): seq<Message>
  {
    Head(systemPrompt, history)
    + [Message("user", UserContent(suffixTemplate, dumps(context)))]
    + (if includeAssistant && Truthy(completion) then [Message("assistant", dumps(completion))] else [])
  }

  /** `format_conversation`: the messages appended one step at a time. */
  method FormatConversation(systemPrompt: string, history: seq<ParsedHistoryTurn>, suffixTemplate: string,
                            context: NoteField, completion: NoteField, includeAssistant: bool,
                            dumps: NoteField -> string)
    returns (messages: seq<Message>)
    ensures messages == Conversation(systemPrompt, history, suffixTemplate, context, completion, includeAssistant, dumps)
  {
    messages := [];
    if systemPrompt != "" {
      messages := messages + [Message("system", systemPrompt)];
    }
    ghost var head := messages;
    var i := 0;
    while i < |history|
      invariant 0 <= i <= |history|
      invariant messages == head + TurnMessages(history[..i])
    {
      assert TurnMessages(history[..i + 1]) == TurnMessages(history[..i]) + [Message(RoleName(history[i].role), history[i].content)];
      messages := messages + [Message(RoleName(history[i].role), history[i].content)];
      i := i + 1;
    }
    assert history[..i] == history;
    var contextText := dumps(context);
    var userContent: string;
    if Contains(suffixTemplate, NotePlaceholder) {
      userContent := ReplaceAll(suffixTemplate, NotePlaceholder, contextText);
    } else {
      userContent := suffixTemplate + "\n\nContext:\n" + contextText;
    }
    messages := messages + [Message("user", userContent)];
    if includeAssistant && Truthy(completion) {
      messages := messages + [Message("assistant", dumps(completion))];
    }
  }

  /**
   * The layout of a conversation: a system message first when the prompt
   * is non-empty, then one message per history turn with its role and
   * content, then one user message, then an assistant message exactly when
   * it is asked for and the completion is truthy.
   */
  lemma ConversationLayout(systemPrompt: string, history: seq<ParsedHistoryTurn>, suffixTemplate: string,
                           context: NoteField, completion: NoteField, includeAssistant: bool,
                           dumps: NoteField -> string)
    ensures var m := Conversation(systemPrompt, history, suffixTemplate, context, completion, includeAssistant, dumps);
            var s := if systemPrompt != "" then 1 else 0;
            var a := if includeAssistant && Truthy(completion) then 1 else 0;
            |m| == s + |history| + 1 + a
            && m[..s + |history|] == Head(systemPrompt, history)
            && (systemPrompt != "" ==> m[0] == Message("system", systemPrompt))
            && (forall i :: 0 <= i < |history| ==> m[s + i] == Message(RoleName(history[i].role), history[i].content))
            && m[s + |history|] == Message("user", UserContent(suffixTemplate, dumps(context)))
            && (a == 1 ==> m[|m| - 1] == Message("assistant", dumps(completion)))
  {
    var m := Conversation(systemPrompt, history, suffixTemplate, context, completion, includeAssistant, dumps);
    var hd := Head(systemPrompt, history);
    var s := if systemPrompt != "" then 1 else 0;
    assert |hd| == s + |history|;
    assert m[..|hd|] == hd;
    forall i | 0 <= i < |history|
      ensures m[s + i] == Message(RoleName(history[i].role), history[i].content)
    {
      assert m[s + i] == hd[s + i];
    }
  }

  /** A stored record as the dataset builder reads it; `None` is a missing key. */
  datatype StoredRecord = StoredRecord(systemPrompt: Option<string>, history: Option<seq<ParsedHistoryTurn>>,
                                       suffixPrompt: Option<string>,
                                       previousNote: Option<NoteField>, previousNoteRejected: Option<NoteField>,
                                       completion: Option<NoteField>, completionRejected: Option<NoteField>)

  /** `item.get('previous_note_rejected') or item.get('previous_note', {})`. */
  function RejectedContext(item: StoredRecord): (r: NoteField)
    ensures item.previousNoteRejected.Some? && Truthy(item.previousNoteRejected.value) ==> r == item.previousNoteRejected.value
    ensures !(item.previousNoteRejected.Some? && Truthy(item.previousNoteRejected.value)) ==>
              r == OrDefault(item.previousNote, EmptyDict)
  {
    if item.previousNoteRejected.Some? && Truthy(item.previousNoteRejected.value) then item.previousNoteRejected.value
    else OrDefault(item.previousNote, EmptyDict)
  }

  /** The chosen conversation: the previous note as context and the completion as the answer. */
  function ChosenConversation(item: StoredRecord, dumps: NoteField -> string): seq<Message>
  {
    Conversation(OrDefault(item.systemPrompt, ""), OrDefault(item.history, []), OrDefault(item.suffixPrompt, ""),
                 OrDefault(item.previousNote, EmptyDict), OrDefault(item.completion, EmptyDict), true, dumps)
  }

  /** The rejected conversation: the rejected context and the rejected completion. */
  function RejectedConversation(item: StoredRecord, dumps: NoteField -> string): seq<Message>
  {
    Conversation(OrDefault(item.systemPrompt, ""), OrDefault(item.history, []), OrDefault(item.suffixPrompt, ""),
                 RejectedContext(item), OrDefault(item.completionRejected, EmptyDict), true, dumps)
  }

  /**
   * A preference pair shares its system message and history turns; the
   * user messages differ only in the context note, and with no rejected
   * context of its own the rejected side uses the chosen context.
   */
  lemma PreferencePairShares(item: StoredRecord, dumps: NoteField -> string)
    ensures var c := ChosenConversation(item, dumps);
            var r := RejectedConversation(item, dumps);
            var k := (if OrDefault(item.systemPrompt, "") != "" then 1 else 0) + |OrDefault(item.history, [])|;
            |c| > k && |r| > k && c[..k] == r[..k]
            && r[k] == Message("user", UserContent(OrDefault(item.suffixPrompt, ""), dumps(RejectedContext(item))))
    ensures (item.previousNoteRejected.None? || !Truthy(item.previousNoteRejected.value)) ==>
              RejectedContext(item) == OrDefault(item.previousNote, EmptyDict)
  {
    var sp, h, sfx := OrDefault(item.systemPrompt, ""), OrDefault(item.history, []), OrDefault(item.suffixPrompt, "");
    ConversationLayout(sp, h, sfx, OrDefault(item.previousNote, EmptyDict), OrDefault(item.completion, EmptyDict), true, dumps);
    ConversationLayout(sp, h, sfx, RejectedContext(item), OrDefault(item.completionRejected, EmptyDict), true, dumps);
  }

  /** Every record the parser writes carries a completion, so its conversation always ends with an answer. */
  lemma ParsedCompletionAnswered(systemPrompt: string, history: seq<ParsedHistoryTurn>, suffixTemplate: string,
                                 context: NoteField, completion: SoapSections, dumps: NoteField -> string)
    ensures var m := Conversation(systemPrompt, history, suffixTemplate, context, SectionsDict(completion), true, dumps);
            m[|m| - 1] == Message("assistant", dumps(SectionsDict(completion)))
  {
    ConversationLayout(systemPrompt, history, suffixTemplate, context, SectionsDict(completion), true, dumps);
  }

  /**
   * Reading a file of stored records: blank lines are skipped, a line that
   * is not JSON ends the whole run, and every other record becomes one row.
   */
  function Rows<T>(lines: seq<string>, decode: string -> Option<StoredRecord>, row: StoredRecord -> T): (r: Result<seq<T>>)
    ensures r.Ok? ==> |r.value| <= |lines|
  {
    if lines == [] then Ok([])
    else AddLine(Rows(lines[..|lines| - 1], decode, row), lines[|lines| - 1], decode, row)
  }

  /** The rows read so far, after one more line. */
  function AddLine<T>(before: Result<seq<T>>, line: string, decode: string -> Option<StoredRecord>, row: StoredRecord -> T): (r: Result<seq<T>>)
    ensures r.Ok? ==> before.Ok? && |r.value| <= |before.value| + 1
  {
    if before.Err? then before
    else if Strip(line) == [] then before
    else match decode(line)
      case None => Err("JSONDecodeError")
      case Some(item) => Ok(before.value + [row(item)])
  }

  /** The rows `process_sft_data` makes. */
  function SftRow(dumps: NoteField -> string): StoredRecord -> seq<Message>
  {
    item => ChosenConversation(item, dumps)
  }

  /** The rows `process_dpo_data` makes. */
  function DpoRow(dumps: NoteField -> string): StoredRecord -> (seq<Message>, seq<Message>)
  {
    item => (ChosenConversation(item, dumps), RejectedConversation(item, dumps))
  }

  /** Reading a file one line further. */
  lemma RowsStep<T>(lines: seq<string>, i: nat, decode: string -> Option<StoredRecord>, row: StoredRecord -> T)
    requires i < |lines|
    ensures Rows(lines[..i + 1], decode, row) == AddLine(Rows(lines[..i], decode, row), lines[i], decode, row)
  {
    assert lines[..i + 1][..i] == lines[..i];
  }

  /** `process_sft_data`: one conversation per record, context the previous note, answer the completion. */
  method ProcessSftData(lines: seq<string>, decode: string -> Option<StoredRecord>, dumps: NoteField -> string)
    returns (r: Result<seq<seq<Message>>>)
    ensures r == Rows(lines, decode, SftRow(dumps))
  {
    var rows: seq<seq<Message>> := [];
    var i := 0;
    while i < |lines|
      invariant 0 <= i <= |lines|
      invariant Rows(lines[..i], decode, SftRow(dumps)) == Ok(rows)
    {
      RowsStep(lines, i, decode, SftRow(dumps));
      if Strip(lines[i]) != [] {
        var decoded := decode(lines[i]);
        if decoded.None? {
          ErrStays(lines, i + 1, decode, SftRow(dumps));
          return Err("JSONDecodeError");
        }
        var item := decoded.value;
        var messages := FormatConversation(OrDefault(item.systemPrompt, ""), OrDefault(item.history, []),
                                           OrDefault(item.suffixPrompt, ""), OrDefault(item.previousNote, EmptyDict),
                                           OrDefault(item.completion, EmptyDict), true, dumps);
        rows := rows + [messages];
      }
      i := i + 1;
    }
    assert lines[..i] == lines;
    r := Ok(rows);
  }

  /** `process_dpo_data`: one chosen and one rejected conversation per record. */
  method ProcessDpoData(lines: seq<string>, decode: string -> Option<StoredRecord>, dumps: NoteField -> string)
    returns (r: Result<seq<(seq<Message>, seq<Message>)>>)
    ensures r == Rows(lines, decode, DpoRow(dumps))
  {
    var rows: seq<(seq<Message>, seq<Message>)> := [];
    var i := 0;
    while i < |lines|
      invariant 0 <= i <= |lines|
      invariant Rows(lines[..i], decode, DpoRow(dumps)) == Ok(rows)
    {
      RowsStep(lines, i, decode, DpoRow(dumps));
      if Strip(lines[i]) != [] {
        var decoded := decode(lines[i]);
        if decoded.None? {
          ErrStays(lines, i + 1, decode, DpoRow(dumps));
          return Err("JSONDecodeError");
        }
        var pair := FormatPair(decoded.value, dumps);
        rows := rows + [pair];
      }
      i := i + 1;
    }
    assert lines[..i] == lines;
    r := Ok(rows);
  }

  /** One record's chosen and rejected conversations, as `process_dpo_data` formats them. */
  method FormatPair(item: StoredRecord, dumps: NoteField -> string) returns (pair: (seq<Message>, seq<Message>))
    ensures pair == (ChosenConversation(item, dumps), RejectedConversation(item, dumps))
  {
    var sp, h, sfx := OrDefault(item.systemPrompt, ""), OrDefault(item.history, []), OrDefault(item.suffixPrompt, "");
    var chosen := FormatConversation(sp, h, sfx, OrDefault(item.previousNote, EmptyDict),
                                     OrDefault(item.completion, EmptyDict), true, dumps);
    var rejNote := if item.previousNoteRejected.Some? && Truthy(item.previousNoteRejected.value)
                   then item.previousNoteRejected.value else OrDefault(item.previousNote, EmptyDict);
    var rejected := FormatConversation(sp, h, sfx, rejNote, OrDefault(item.completionRejected, EmptyDict), true, dumps);
    pair := (chosen, rejected);
  }

  /** Once a line fails to decode, the rest of the file does not matter. */
  lemma {:induction false} ErrStays<T>(lines: seq<string>, n: nat, decode: string -> Option<StoredRecord>, row: StoredRecord -> T)
    requires n <= |lines|
    requires Rows(lines[..n], decode, row).Err?
    ensures Rows(lines, decode, row) == Rows(lines[..n], decode, row)
    decreases |lines| - n
  {
    if n < |lines| {
      assert lines[..n + 1][..n] == lines[..n];
      ErrStays(lines, n + 1, decode, row);
    } else {
      assert lines[..n] == lines;
    }
  }

  /**
   * The two datasets read the same records: the fine-tuning rows exist
   * exactly when the preference rows do, and each is the chosen side of
   * the matching pair.
   */
  lemma {:induction false} SftIsDpoChosen(lines: seq<string>, decode: string -> Option<StoredRecord>, dumps: NoteField -> string)
    ensures var sft := Rows(lines, decode, SftRow(dumps));
            var dpo := Rows(lines, decode, DpoRow(dumps));
            (sft.Ok? <==> dpo.Ok?)
            && (sft.Ok? ==> |sft.value| == |dpo.value|
                            && forall i :: 0 <= i < |sft.value| ==> sft.value[i] == dpo.value[i].0)
  {
    RowsProject(lines, decode, SftRow(dumps),
                DpoRow(dumps));
  }

  /** `b` holds pairs whose first halves are exactly `a`, or both are errors. */
  ghost predicate Projected<T, U>(a: Result<seq<T>>, b: Result<seq<(T, U)>>)
  {
    (a.Ok? <==> b.Ok?)
    && (a.Ok? ==> |a.value| == |b.value| && forall i :: 0 <= i < |a.value| ==> a.value[i] == b.value[i].0)
  }

  /** Rows built by a projection of another row builder are that builder's rows, projected. */
  lemma {:induction false} RowsProject<T, U>(lines: seq<string>, decode: string -> Option<StoredRecord>,
                                             f: StoredRecord -> T, g: StoredRecord -> (T, U))
    requires forall item :: f(item) == g(item).0
    ensures Projected(Rows(lines, decode, f), Rows(lines, decode, g))
  {
    if lines != [] {
      var init, line := lines[..|lines| - 1], lines[|lines| - 1];
      RowsProject(init, decode, f, g);
      AddLineProject(Rows(init, decode, f), Rows(init, decode, g), line, decode, f, g);
    }
  }

  /** One more line keeps the projection. */
  lemma AddLineProject<T, U>(a: Result<seq<T>>, b: Result<seq<(T, U)>>, line: string,
                             decode: string -> Option<StoredRecord>, f: StoredRecord -> T, g: StoredRecord -> (T, U))
    requires forall item :: f(item) == g(item).0
    requires Projected(a, b)
    ensures Projected(AddLine(a, line, decode, f), AddLine(b, line, decode, g))
  {
  }
}
