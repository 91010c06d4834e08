/**
 * `Transform`: the pieces a session log is unrolled with. The highest chunk
 * index of the history, the split of a note into the items from before a
 * chunk (context) and the items of the chunk itself (target), and the
 * history up to a chunk as chat turns plus a normalised transcript.
 */
module Transform {
  import opened Common
  import opened Document
  import opened PipelineSchema
  import opened Normalization

  /** A logged history turn; each key may be missing. */
  datatype RawTurn = RawTurn(role: Option<string>, content: Option<string>, chunk: Option<int>)

  /** `turn.get("chunk_index", 0)`. */
  function ChunkOf(t: RawTurn): int
  {
    if t.chunk.Some? then t.chunk.value else 0
  }

  /** `turn.get("content", "")`. */
  function ContentOf(t: RawTurn): string
  {
    if t.content.Some? then t.content.value else ""
  }

  /**
   * `max_chunk_index`: 0 for an empty history, otherwise the largest chunk
   * index of its turns, a missing one counting as 0.
   */
  function MaxChunkIndex(history: seq<RawTurn>): (r: int)
    ensures history == [] ==> r == 0
    ensures forall i :: 0 <= i < |history| ==> ChunkOf(history[i]) <= r
    ensures history != [] ==> exists i :: 0 <= i < |history| && ChunkOf(history[i]) == r
  {
    if history == [] then 0
    else if |history| == 1 then ChunkOf(history[0])
    else
      var m := MaxChunkIndex(history[..|history| - 1]);
      var last := ChunkOf(history[|history| - 1]);
      if m < last then last else m
  }

  // ---------------------------------------------------------------------
  // filter_soap_items
  // ---------------------------------------------------------------------

  /** An element of a section list: an item dict, or anything else. */
  datatype RawItem = DictItem(item: ItemDict) | OtherItem

  /** The decoded note handed to the filter: a dict of section lists, or something that is not a dict. */
  datatype SoapData = SoapDict(sections: map<string, seq<RawItem>>) | NotADict

  datatype FilterMode = Context | Target

  /** The sections in the order of the empty note's keys. */
  const SectionOrder: seq<Section> := [Subjective, Objective, Assessment, Plan]

  function SectionKey(sec: Section): string
  {
    match sec
    case Subjective => "subjective"
    case Objective => "objective"
    case Assessment => "assessment"
    case Plan => "plan"
  }

  /** `soap_data.get(section, [])`. */
  function ItemsIn(sections: map<string, seq<RawItem>>, sec: Section): seq<RawItem>
  {
    if SectionKey(sec) in sections then sections[SectionKey(sec)] else []
  }

  /** `item.get("source_chunk_index", -1)`. */
  function SourceOf(it: ItemDict): int
  {
    if it.source.Some? then it.source.value else -1
  }

  /** Whether an item belongs in the result for `target`: before it (context) or in it (target). */
  predicate Selected(it: ItemDict, target: int, mode: FilterMode)
  {
    match mode
    case Context => SourceOf(it) < target
    case Target => SourceOf(it) == target
  }

  /** The item dicts of one section list that the mode selects, in order. */
  function Filtered(items: seq<RawItem>, target: int, mode: FilterMode): seq<ItemDict>
  {
    if items == [] then []
    else
      var last := items[|items| - 1];
      Filtered(items[..|items| - 1], target, mode)
      + (if last.DictItem? && Selected(last.item, target, mode) then [last.item] else [])
  }

  /** What `filter_soap_items` returns: the empty note for a non-dict, otherwise each section filtered. */
  function FilterSpec(soap: SoapData, target: int, mode: FilterMode): SoapSections
  {
    match soap
    case NotADict => EmptySections()
    case SoapDict(m) =>
      SoapSections(Filtered(ItemsIn(m, Subjective), target, mode), Filtered(ItemsIn(m, Objective), target, mode),
                   Filtered(ItemsIn(m, Assessment), target, mode), Filtered(ItemsIn(m, Plan), target, mode))
  }

  /** `filter_soap_items`: append each selected item dict to its section of a fresh empty note. */
  method FilterSoapItems(soap: SoapData, target: int, mode: FilterMode) returns (filtered: SoapSections)
    ensures filtered == FilterSpec(soap, target, mode)
  {
    filtered := EmptySections();
    if soap.NotADict? {
      return;
    }
    var s := 0;
    while s < |SectionOrder|
      invariant 0 <= s <= |SectionOrder|
      invariant filtered == FilledUpTo(soap.sections, target, mode, s)
    {
      var sec := SectionOrder[s];
      filtered := FilterSection(filtered, sec, ItemsIn(soap.sections, sec), target, mode);
      SectionsExtensionality(filtered, FilledUpTo(soap.sections, target, mode, s + 1));
      s := s + 1;
    }
  }

  /** The note after the first `s` sections have been filled. */
  function FilledUpTo(m: map<string, seq<RawItem>>, target: int, mode: FilterMode, s: nat): SoapSections
  {
    SoapSections(if s > 0 then Filtered(ItemsIn(m, Subjective), target, mode) else [],
                 if s > 1 then Filtered(ItemsIn(m, Objective), target, mode) else [],
                 if s > 2 then Filtered(ItemsIn(m, Assessment), target, mode) else [],
                 if s > 3 then Filtered(ItemsIn(m, Plan), target, mode) else [])
  }

  /** The inner loop: append the selected item dicts of one section list to that section. */
  method FilterSection(filtered: SoapSections, sec: Section, items: seq<RawItem>, target: int, mode: FilterMode)
    returns (r: SoapSections)
    ensures r.Get(sec) == filtered.Get(sec) + Filtered(items, target, mode)
    ensures forall other: Section :: other != sec ==> r.Get(other) == filtered.Get(other)
  {
    r := filtered;
    var j := 0;
    while j < |items|
      invariant 0 <= j <= |items|
      invariant r.Get(sec) == filtered.Get(sec) + Filtered(items[..j], target, mode)
      invariant forall other: Section :: other != sec ==> r.Get(other) == filtered.Get(other)
    {
      assert items[..j + 1][..j] == items[..j];
      var item := items[j];
      if item.DictItem? {
        var src := SourceOf(item.item);
        if mode == Context && src < target {
          r := r.With(sec, r.Get(sec) + [item.item]);
        } else if mode == Target && src == target {
          r := r.With(sec, r.Get(sec) + [item.item]);
        }
      }
      j := j + 1;
    }
    assert items[..j] == items;
  }

  /** An item dict is kept exactly when it is in the list and the mode selects it. */
  lemma {:induction false} FilteredMembers(items: seq<RawItem>, target: int, mode: FilterMode)
    ensures forall x :: x in Filtered(items, target, mode) <==> DictItem(x) in items && Selected(x, target, mode)
  {
    if items != [] {
      var init := items[..|items| - 1];
      FilteredMembers(init, target, mode);
      assert items == init + [items[|items| - 1]];
    }
  }

  /** Filtering distributes over concatenation, so kept items keep their relative order. */
  lemma {:induction false} FilteredAppend(a: seq<RawItem>, b: seq<RawItem>, target: int, mode: FilterMode)
    ensures Filtered(a + b, target, mode) == Filtered(a, target, mode) + Filtered(b, target, mode)
    decreases |b|
  {
    if b == [] {
      assert a + b == a;
    } else {
      var init := b[..|b| - 1];
      FilteredAppend(a, init, target, mode);
      assert (a + b)[..|a + b| - 1] == a + init;
    }
  }

  /** Every kept item of a note comes from the same section of the input and is selected by the mode. */
  lemma FilterSpecMembers(soap: SoapData, target: int, mode: FilterMode, sec: Section)
    ensures forall x :: x in FilterSpec(soap, target, mode).Get(sec) <==>
              soap.SoapDict? && DictItem(x) in ItemsIn(soap.sections, sec) && Selected(x, target, mode)
  {
    if soap.SoapDict? {
      FilteredMembers(ItemsIn(soap.sections, sec), target, mode);
    }
  }

  /** The two modes are disjoint: no item is both context and target for the same chunk. */
  lemma ModesDisjoint(soap: SoapData, target: int, sec: Section)
    ensures forall x :: !(x in FilterSpec(soap, target, Context).Get(sec) && x in FilterSpec(soap, target, Target).Get(sec))
  {
    FilterSpecMembers(soap, target, Context, sec);
    FilterSpecMembers(soap, target, Target, sec);
  }

  /** The context for the next chunk is this chunk's context together with its target. */
  lemma ContextGrows(soap: SoapData, target: int, sec: Section)
    ensures forall x :: x in FilterSpec(soap, target + 1, Context).Get(sec) <==>
              x in FilterSpec(soap, target, Context).Get(sec) || x in FilterSpec(soap, target, Target).Get(sec)
  {
    FilterSpecMembers(soap, target + 1, Context, sec);
    FilterSpecMembers(soap, target, Context, sec);
    FilterSpecMembers(soap, target, Target, sec);
  }

  /** An item without a source chunk is in every context from chunk 0 on, and in no target. */
  lemma UnsourcedInEveryContext(soap: SoapData, target: int, sec: Section, x: ItemDict)
    requires soap.SoapDict? && DictItem(x) in ItemsIn(soap.sections, sec) && x.source.None?
    requires target >= 0
    ensures x in FilterSpec(soap, target, Context).Get(sec)
    ensures x !in FilterSpec(soap, target, Target).Get(sec)
  {
    FilterSpecMembers(soap, target, Context, sec);
    FilterSpecMembers(soap, target, Target, sec);
  }

  // ---------------------------------------------------------------------
  // format_history_upto
  // ---------------------------------------------------------------------

  /** The turns with chunk index at most `curr`, in order. */
  function Upto(history: seq<RawTurn>, curr: int): seq<RawTurn>
  {
    if history == [] then []
    else
      var last := history[|history| - 1];
      Upto(history[..|history| - 1], curr) + (if ChunkOf(last) <= curr then [last] else [])
  }

  /** `(turn.get('role') or 'Speaker').upper()`. */
  function SpeakerLabel(t: RawTurn): string
  {
    Upper(if t.role.Some? && t.role.value != "" then t.role.value else "Speaker")
  }

  /** The chat turn a logged turn becomes: a user message `ROLE: content`. */
  function AsUserTurn(t: RawTurn): ParsedHistoryTurn
  {
    ParsedHistoryTurn(User, SpeakerLabel(t) + ": " + ContentOf(t))
  }

  /**
   * `format_history_upto`: the turns up to `curr` as user messages, and the
   * `". "`-join of their normalised contents.
   */
  function FormatHistoryUpto(history: seq<RawTurn>, curr: int): (seq<ParsedHistoryTurn>, string)
  {
    var kept := Upto(history, curr);
    (seq(|kept|, i requires 0 <= i < |kept| => AsUserTurn(kept[i])),
     Join(". ", seq(|kept|, i requires 0 <= i < |kept| => NormalizeText(ContentOf(kept[i])))))
  }

  /** A turn is kept exactly when it is in the history with a chunk index at most `curr`. */
  lemma {:induction false} UptoMembers(history: seq<RawTurn>, curr: int)
    ensures forall t :: t in Upto(history, curr) <==> t in history && ChunkOf(t) <= curr
    ensures |Upto(history, curr)| <= |history|
  {
    if history != [] {
      var init := history[..|history| - 1];
      UptoMembers(init, curr);
      assert history == init + [history[|history| - 1]];
    }
  }

  /** When no turn is past `curr`, every turn is kept. */
  lemma {:induction false} UptoKeepsAll(history: seq<RawTurn>, curr: int)
    requires forall i :: 0 <= i < |history| ==> ChunkOf(history[i]) <= curr
    ensures Upto(history, curr) == history
  {
    if history != [] {
      var init := history[..|history| - 1];
      UptoKeepsAll(init, curr);
      assert history == init + [history[|history| - 1]];
    }
  }

  /** At the highest chunk index every turn is kept, so the last record sees the whole history. */
  lemma UptoMaxIsAll(history: seq<RawTurn>, curr: int)
    requires curr >= MaxChunkIndex(history)
    ensures Upto(history, curr) == history
  {
    UptoKeepsAll(history, curr);
  }

  /** In a history ordered by chunk index, the turns up to one chunk are a prefix of the turns up to a later one. */
  lemma {:induction false} UptoPrefix(history: seq<RawTurn>, c: int, d: int)
    requires c <= d
    requires forall i, j :: 0 <= i < j < |history| ==> ChunkOf(history[i]) <= ChunkOf(history[j])
    ensures Upto(history, c) <= Upto(history, d)
  {
    if history != [] {
      var init := history[..|history| - 1];
      var last := history[|history| - 1];
      if ChunkOf(last) <= c {
        assert forall i :: 0 <= i < |history| ==> ChunkOf(history[i]) <= c;
        UptoKeepsAll(history, c);
        UptoKeepsAll(history, d);
      } else {
        UptoPrefix(init, c, d);
      }
    }
  }

  /**
   * The formatted turns are the kept turns, in order, each a user message
   * `ROLE: content`, and each transcript piece is normalised text.
   */
  lemma FormatHistoryShape(history: seq<RawTurn>, curr: int)
    ensures var (turns, _) := FormatHistoryUpto(history, curr);
            var kept := Upto(history, curr);
            |turns| == |kept|
            && forall i :: 0 <= i < |turns| ==>
                 turns[i].role == User && turns[i].content == SpeakerLabel(kept[i]) + ": " + ContentOf(kept[i])
    ensures forall t :: t in Upto(history, curr) ==> Normalized(NormalizeText(ContentOf(t)))
  {
    forall t | t in Upto(history, curr)
      ensures Normalized(NormalizeText(ContentOf(t)))
    {
      NormalizeShape(ContentOf(t));
    }
  }

  /** A turn with no role, or an empty one, is labelled `SPEAKER`. */
  lemma DefaultSpeaker(t: RawTurn)
    requires t.role.None? || t.role == Some("")
    ensures SpeakerLabel(t) == "SPEAKER"
  {
    assert Upper("Speaker") == "SPEAKER";
  }
}
