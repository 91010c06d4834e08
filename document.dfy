/**
 * The SOAP note the pipeline builds chunk by chunk: four sections, each an
 * ordered list of items that remember the chunk they were extracted from
 * (`{text, source_chunk_index}`), and the append-merge that folds a
 * per-chunk delta into the running note.
 */
module Document {

  datatype Item = Item(text: string, sourceChunk: int)

  datatype Section = Subjective | Objective | Assessment | Plan

  datatype Note = Note(subjective: seq<Item>, objective: seq<Item>,
                       assessment: seq<Item>, plan: seq<Item>)
  {
    function Get(sec: Section): seq<Item>
    {
      match sec
      case Subjective => subjective
      case Objective => objective
      case Assessment => assessment
      case Plan => plan
    }
  }

  /** The note a session starts from: every section empty. */
  function Empty(): (n: Note)
    ensures forall sec: Section :: n.Get(sec) == []
  {
    Note([], [], [], [])
  }

  /** Two notes are equal exactly when all four sections are. */
  lemma NoteExtensionality(a: Note, b: Note)
    requires forall sec: Section :: a.Get(sec) == b.Get(sec)
    ensures a == b
  {
    assert a.Get(Subjective) == b.Get(Subjective) && a.Get(Objective) == b.Get(Objective);
    assert a.Get(Assessment) == b.Get(Assessment) && a.Get(Plan) == b.Get(Plan);
  }

  /** Merging a delta extends every section with the delta's items, in order. */
  function Merge(n: Note, delta: Note): (r: Note)
    ensures forall sec: Section :: r.Get(sec) == n.Get(sec) + delta.Get(sec)
  {
    Note(n.subjective + delta.subjective, n.objective + delta.objective,
         n.assessment + delta.assessment, n.plan + delta.plan)
  }

  /** Every section of `n` is a prefix of the same section of `m`. */
  predicate Extends(m: Note, n: Note)
  {
    forall sec: Section :: n.Get(sec) <= m.Get(sec)
  }

  lemma MergeIdentity(n: Note)
    ensures Merge(n, Empty()) == n && Merge(Empty(), n) == n
  {
    NoteExtensionality(Merge(n, Empty()), n);
    NoteExtensionality(Merge(Empty(), n), n);
  }

  lemma MergeAssociative(a: Note, b: Note, c: Note)
    ensures Merge(Merge(a, b), c) == Merge(a, Merge(b, c))
  {
    forall sec: Section ensures Merge(Merge(a, b), c).Get(sec) == Merge(a, Merge(b, c)).Get(sec) {
      assert a.Get(sec) + b.Get(sec) + c.Get(sec) == a.Get(sec) + (b.Get(sec) + c.Get(sec));
    }
    NoteExtensionality(Merge(Merge(a, b), c), Merge(a, Merge(b, c)));
  }

  /** Merging never edits or removes an item that is already there. */
  lemma MergeExtends(n: Note, delta: Note)
    ensures Extends(Merge(n, delta), n)
  {
  }

  /** The note after merging a sequence of deltas one after another. */
  function MergeAll(n: Note, deltas: seq<Note>): Note
    decreases |deltas|
  {
    if deltas == [] then n else MergeAll(Merge(n, deltas[0]), deltas[1..])
  }

  /** The items one section receives from a sequence of deltas, in order. */
  function SectionOf(deltas: seq<Note>, sec: Section): seq<Item>
    decreases |deltas|
  {
    if deltas == [] then [] else deltas[0].Get(sec) + SectionOf(deltas[1..], sec)
  }

  /** Each section of the folded note is the start section followed by every delta's items. */
  lemma {:induction false} MergeAllSections(n: Note, deltas: seq<Note>, sec: Section)
    ensures MergeAll(n, deltas).Get(sec) == n.Get(sec) + SectionOf(deltas, sec)
    decreases |deltas|
  {
    if deltas != [] {
      MergeAllSections(Merge(n, deltas[0]), deltas[1..], sec);
      assert n.Get(sec) + deltas[0].Get(sec) + SectionOf(deltas[1..], sec)
          == n.Get(sec) + (deltas[0].Get(sec) + SectionOf(deltas[1..], sec));
    }
  }

  /** Folding two runs of deltas equals folding their concatenation. */
  lemma {:induction false} MergeAllAppend(n: Note, a: seq<Note>, b: seq<Note>)
    ensures MergeAll(n, a + b) == MergeAll(MergeAll(n, a), b)
    decreases |a|
  {
    if a != [] {
      assert (a + b)[0] == a[0] && (a + b)[1..] == a[1..] + b;
      MergeAllAppend(Merge(n, a[0]), a[1..], b);
    } else {
      assert a + b == b;
    }
  }

  /** Every item of the note was extracted from chunk `k`. */
  predicate StampedWith(n: Note, k: int)
  {
    forall sec: Section, i :: 0 <= i < |n.Get(sec)| ==> n.Get(sec)[i].sourceChunk == k
  }

  /** Items appear in non-decreasing chunk order and none comes from chunk `bound` or later. */
  predicate OrderedBelow(n: Note, bound: int)
  {
    forall sec: Section, i, j :: 0 <= i <= j < |n.Get(sec)| ==>
      n.Get(sec)[i].sourceChunk <= n.Get(sec)[j].sourceChunk < bound
  }

  /**
   * Merging the delta of chunk `k` into a note built from earlier chunks keeps
   * every section ordered by chunk, now bounded by `k + 1`.
   */
  lemma MergeKeepsChunkOrder(n: Note, delta: Note, k: int)
    requires OrderedBelow(n, k) && StampedWith(delta, k)
    ensures OrderedBelow(Merge(n, delta), k + 1)
  {
    forall sec: Section, i, j | 0 <= i <= j < |Merge(n, delta).Get(sec)|
      ensures Merge(n, delta).Get(sec)[i].sourceChunk <= Merge(n, delta).Get(sec)[j].sourceChunk < k + 1
    {
      var s := Merge(n, delta).Get(sec);
      var m := |n.Get(sec)|;
      if i < m {
        assert s[i] == n.Get(sec)[i];
      } else {
        assert s[i] == delta.Get(sec)[i - m];
      }
      if j < m {
        assert s[j] == n.Get(sec)[j];
      } else {
        assert s[j] == delta.Get(sec)[j - m];
      }
    }
  }
}
