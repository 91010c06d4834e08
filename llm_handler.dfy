/**
 * The language-model front end: adapter ids, the choice of adapter for a
 * task, the chat messages of a scribe request, and the parsing of the model's
 * answer into a note whose items remember the chunk they came from.
 */
module LlmHandler {
  import opened Common
  import opened Json
  import opened Document
  import opened Schemas
  import Prompts

  predicate Distinct(names: seq<string>)
  {
    forall i, j :: 0 <= i < j < |names| ==> names[i] != names[j]
  }

  /**
   * `lora_id_map`: the configured adapter names (a dict's keys, so distinct)
   * numbered 1, 2, ... in declaration order; 0 stays free for the base model.
   */
  function LoraIdMap(names: seq<string>): (m: map<string, int>)
    requires Distinct(names)
    ensures m.Keys == set n | n in names
    ensures forall i :: 0 <= i < |names| ==> m[names[i]] == i + 1
    ensures forall a, b :: a in m && b in m && a != b ==> m[a] != m[b]
    ensures forall a :: a in m ==> 1 <= m[a] <= |names|
  {
    var m := map i | 0 <= i < |names| :: names[i] := i + 1;
    assert forall i :: 0 <= i < |names| ==> names[i] in m && m[names[i]] == i + 1;
    m
  }

  /** Every soap variant shares the `soap` adapter; other tasks use their own name. */
  function AdapterKey(taskType: string): (r: string)
    ensures Contains(taskType, "soap") ==> r == "soap"
    ensures !Contains(taskType, "soap") ==> r == taskType
  {
    if Contains(taskType, "soap") then "soap" else taskType
  }

  /** Every task whose name starts with `soap`, such as `soap_final`, shares the `soap` adapter. */
  lemma SoapVariantsShareAdapter(suffix: string)
    ensures AdapterKey("soap" + suffix) == "soap"
  {
    var task := "soap" + suffix;
    assert task[0..4] == "soap";
    OccursContains(task, "soap", 0);
  }

  datatype LoraRequest = LoraRequest(name: string, intId: int, localPath: string)

  /**
   * The adapter routing of `generate_scribe`: a request for its `task_type`'s adapter
   * only when adapters are enabled, the adapter has a non-empty path and an id.
   */
  function RouteLora(enableLora: bool, adapters: map<string, string>, idMap: map<string, int>, taskType: string)
    : (r: Option<LoraRequest>)
    ensures r.Some? <==> var key := AdapterKey(taskType);
              enableLora && key in adapters && adapters[key] != "" && key in idMap
    ensures r.Some? ==> var key := AdapterKey(taskType);
              r.value == LoraRequest(key, idMap[key], adapters[key])
  {
    var key := AdapterKey(taskType);
    if enableLora && key in adapters && adapters[key] != "" && key in idMap then
      Some(LoraRequest(key, idMap[key], adapters[key]))
    else None
  }

  /** With the id map built from the configured adapters, every configured adapter with a path is routable. */
  lemma RouteConfiguredAdapter(names: seq<string>, adapters: map<string, string>, taskType: string)
    requires Distinct(names) && adapters.Keys == set n | n in names
    requires AdapterKey(taskType) in adapters && adapters[AdapterKey(taskType)] != ""
    ensures RouteLora(true, adapters, LoraIdMap(names), taskType).Some?
    ensures RouteLora(true, adapters, LoraIdMap(names), taskType).value.intId >= 1
  {
  }

  /**
   * The messages of a scribe request: the system prompt of the `task_type`, one user
   * message `ROLE: content` per history turn, then the suffix of the `task_type` built
   * around the serialised note context.
   */
  function ScribeMessages(taskType: string, history: seq<DialogueTurn>, context: string): (r: seq<Message>)
    ensures |r| == |history| + 2
    ensures r[0] == Message("system", Prompts.GetSystemPrompt(taskType))
    ensures forall i :: 0 <= i < |history| ==>
              r[i + 1] == Message("user", Upper(history[i].role) + ": " + history[i].content)
    ensures r[|r| - 1] == Message("user", Prompts.GetSuffixPrompt(taskType, context))
  {
    [Message("system", Prompts.GetSystemPrompt(taskType))]
    + seq(|history|, i requires 0 <= i < |history| => Message("user", Upper(history[i].role) + ": " + history[i].content))
    + [Message("user", Prompts.GetSuffixPrompt(taskType, context))]
  }

  /** The answer with a markdown fence removed: the text after the first ``` up to the next, minus a leading `json`. */
  function CleanText(raw: string): string
  {
    Unfenced(Strip(raw))
  }

  function Unfenced(t: string): string
  {
    if Contains(t, "```") then DropJsonTag(SecondPiece(t, "```")) else t
  }

  function DropJsonTag(piece: string): string
  {
    if StartsWith(piece, "json") then piece[4..] else piece
  }

  /** A ```json block yields exactly its body. */
  lemma CleanFencedJson(body: string)
    requires '`' !in body
    ensures CleanText("```json" + body + "```") == body
  {
    var inner := "json" + body;
    assert "```json" + body + "```" == "```" + inner + "```";
    FencedText(inner);
    JsonTagDropped(body);
  }

  lemma FencedText(inner: string)
    requires '`' !in inner
    ensures CleanText("```" + inner + "```") == DropJsonTag(inner)
  {
    FencedPiece(inner);
  }

  lemma JsonTagDropped(body: string)
    ensures DropJsonTag("json" + body) == body
  {
    assert ("json" + body)[..4] == "json";
  }

  /** Between two fences: the text is its own strip, contains a fence, and its second piece is the inside. */
  lemma FencedPiece(inner: string)
    requires '`' !in inner
    ensures var text := "```" + inner + "```";
      Strip(text) == text && Contains(text, "```") && SecondPiece(text, "```") == inner
  {
    FencedStripped(inner);
    FencedSecond(inner);
  }

  /** A fenced text starts and ends with a backtick, so stripping leaves it alone. */
  lemma FencedStripped(inner: string)
    ensures Strip("```" + inner + "```") == "```" + inner + "```"
  {
    var text := "```" + inner + "```";
    assert text[0] == '`' && text[|text| - 1] == '`';
    StripUnchanged(text);
  }

  /** The piece after the opening fence of a fenced text is the inside, up to the closing fence. */
  lemma FencedSecond(inner: string)
    requires '`' !in inner
    ensures Contains("```" + inner + "```", "```") && SecondPiece("```" + inner + "```", "```") == inner
  {
    var fence := "```";
    var text := fence + inner + fence;
    assert text == fence + (inner + fence);
    AfterLeading(fence, inner + fence);
    assert OccursAt(inner + fence, fence, |inner|) by {
      assert (inner + fence)[|inner|..|inner| + 3] == fence;
    }
    BeforeTickFree(inner, fence, fence);
  }

  /** The section names of the note object. */
  function SectionKey(sec: Section): string
  {
    match sec
    case Subjective => "subjective"
    case Objective => "objective"
    case Assessment => "assessment"
    case Plan => "plan"
  }

  /** One item per string element, in order, stamped with the chunk; other elements are dropped. */
  function SectionItems(elems: seq<Json>, k: int): (r: seq<Item>)
    ensures forall i :: 0 <= i < |r| ==> r[i].sourceChunk == k
    ensures forall t :: Item(t, k) in r <==> JStr(t) in elems
    ensures |r| <= |elems|
  {
    if elems == [] then []
    else
      var rest := SectionItems(elems[1..], k);
      assert forall e :: e in elems <==> e == elems[0] || e in elems[1..];
      if elems[0].JStr? then [Item(elems[0].s, k)] + rest else rest
  }

  /** One more element adds its item, if it is a string, at the end. */
  lemma SectionItemsSnoc(a: seq<Json>, e: Json, k: int)
    ensures SectionItems(a + [e], k) == SectionItems(a, k) + (if e.JStr? then [Item(e.s, k)] else [])
  {
    SectionItemsAppend(a, [e], k);
    assert [e][1..] == [];
  }

  /** Items of a longer list extend the items of its prefix (order is kept). */
  lemma {:induction false} SectionItemsAppend(a: seq<Json>, b: seq<Json>, k: int)
    ensures SectionItems(a + b, k) == SectionItems(a, k) + SectionItems(b, k)
  {
    if a == [] {
      assert a + b == b;
    } else {
      assert (a + b)[0] == a[0] && (a + b)[1..] == a[1..] + b;
      SectionItemsAppend(a[1..], b, k);
    }
  }

  /** What `for text_content in data.get(key, [])` visits for one section; `None` when it cannot iterate. */
  function SectionElements(fields: seq<(string, Json)>, sec: Section): Option<seq<Json>>
  {
    Elements(GetOr(fields, SectionKey(sec), JArr([])))
  }

  predicate AllSectionsIterable(fields: seq<(string, Json)>)
  {
    forall sec: Section :: SectionElements(fields, sec).Some?
  }

  /** The note built from a decoded answer, or `None` when building it raises. */
  function NoteFromJson(data: Json, k: int): (r: Option<Note>)
    ensures r.Some? <==> data.JObj? && AllSectionsIterable(data.fields)
    ensures r.Some? ==> StampedWith(r.value, k)
  {
    if data.JObj? && AllSectionsIterable(data.fields) then
      var f := data.fields;
      Some(Note(SectionItems(SectionElements(f, Subjective).value, k),
                SectionItems(SectionElements(f, Objective).value, k),
                SectionItems(SectionElements(f, Assessment).value, k),
                SectionItems(SectionElements(f, Plan).value, k)))
    else None
  }

  /** A section the answer leaves out is empty. */
  lemma MissingSectionEmpty(fields: seq<(string, Json)>, sec: Section, k: int)
    requires AllSectionsIterable(fields) && Get(fields, SectionKey(sec)).None?
    ensures NoteFromJson(JObj(fields), k).value.Get(sec) == []
  {
  }

  /** The note of a decoded answer: the built note, or the empty note when decoding or building failed. */
  function NoteOf(decoded: Option<Json>, k: int): (r: Note)
    ensures decoded.None? ==> r == Empty()
    ensures StampedWith(r, k)
  {
    if decoded.Some? && NoteFromJson(decoded.value, k).Some? then NoteFromJson(decoded.value, k).value
    else Empty()
  }

  /** The delta note for chunk `k`: the parsed answer, or the empty note when any step fails. */
  function ParsedNote(raw: string, k: int, loads: Decoder): Note
  {
    NoteOf(loads(CleanText(raw)), k)
  }

  const SectionOrder: seq<Section> := [Subjective, Objective, Assessment, Plan]

  /**
   * `_parse_output`: for the soap adapter, the answer is cleaned, decoded and
   * its four sections copied item by item; any failure gives the empty note.
   * Other tasks get the raw text back.
   */
  method ParseOutput(raw: string, taskType: string, chunkIdx: int, loads: Decoder) returns (r: Summary)
    ensures taskType != "soap" ==> r == TextSummary(raw)
    ensures taskType == "soap" ==> r == NoteSummary(ParsedNote(raw, chunkIdx, loads))
  {
    if taskType != "soap" {
      return TextSummary(raw);
    }
    var decoded := loads(CleanText(raw));
    var note := BuildNote(decoded, chunkIdx);
    return NoteSummary(note);
  }

  /** The `try` body of `_parse_output` after decoding: the four sections copied in order, or the empty note. */
  method BuildNote(decoded: Option<Json>, chunkIdx: int) returns (note: Note)
    ensures note == NoteOf(decoded, chunkIdx)
  {
    if decoded.None? || !decoded.value.JObj? {
      return Empty();
    }
    var fields := decoded.value.fields;
    var lists: seq<seq<Item>> := [];
    var s := 0;
    while s < 4
      invariant 0 <= s <= 4 && |lists| == s
      invariant forall j :: 0 <= j < s ==>
                  (SectionElements(fields, SectionOrder[j]).Some?
                   && lists[j] == SectionItems(SectionElements(fields, SectionOrder[j]).value, chunkIdx))
    {
      var elems := SectionElements(fields, SectionOrder[s]);
      if elems.None? {
        NotIterableGivesEmpty(fields, SectionOrder[s], chunkIdx);
        return Empty();
      }
      var items := CollectSection(elems.value, chunkIdx);
      lists := lists + [items];
      s := s + 1;
    }
    SectionOrderCovers(fields);
    ObjectGivesNote(fields, chunkIdx);
    return Note(lists[0], lists[1], lists[2], lists[3]);
  }

  /** The inner loop of `_parse_output`: the string elements of one section as items of chunk `k`. */
  method CollectSection(elems: seq<Json>, k: int) returns (items: seq<Item>)
    ensures items == SectionItems(elems, k)
  {
    items := [];
    var i := 0;
    while i < |elems|
      invariant 0 <= i <= |elems|
      invariant items == SectionItems(elems[..i], k)
    {
      var e := elems[i];
      SectionItemsSnoc(elems[..i], e, k);
      assert elems[..i + 1] == elems[..i] + [e];
      if e.JStr? {
        items := items + [Item(e.s, k)];
      }
      i := i + 1;
    }
    assert elems[..i] == elems;
  }

  /** A section that cannot be iterated makes the whole note empty. */
  lemma NotIterableGivesEmpty(fields: seq<(string, Json)>, sec: Section, k: int)
    requires SectionElements(fields, sec).None?
    ensures NoteOf(Some(JObj(fields)), k) == Empty()
  {
    assert !AllSectionsIterable(fields);
  }

  lemma SectionOrderCovers(fields: seq<(string, Json)>)
    requires forall j :: 0 <= j < 4 ==> SectionElements(fields, SectionOrder[j]).Some?
    ensures AllSectionsIterable(fields)
  {
    forall sec: Section ensures SectionElements(fields, sec).Some? {
      var j := match sec case Subjective => 0 case Objective => 1 case Assessment => 2 case Plan => 3;
      assert SectionOrder[j] == sec;
    }
  }

  /** When every section iterates, the note holds each section's items in order. */
  lemma ObjectGivesNote(fields: seq<(string, Json)>, k: int)
    requires AllSectionsIterable(fields)
    ensures NoteOf(Some(JObj(fields)), k) == Note(SectionItems(SectionElements(fields, Subjective).value, k),
                                                 SectionItems(SectionElements(fields, Objective).value, k),
                                                 SectionItems(SectionElements(fields, Assessment).value, k),
                                                 SectionItems(SectionElements(fields, Plan).value, k))
  {
  }
}
