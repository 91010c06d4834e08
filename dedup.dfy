/**
 * `Dedup`: the two custom deduplication steps. The exact step keeps the
 * first document of each text hash. The MinHash filter reads the cluster
 * each document fell into and, inside a cluster, keeps one document per
 * patient and day: near-identical text from the same id on the same date is
 * a duplicate, while the same text on another date is a follow-up.
 */
module Dedup {
  import opened Common

  /** A metadata value: text, a whole number or a flag. */
  datatype MetaValue = Text(s: string) | Int(n: int) | Bool(b: bool)

  /** Python truthiness of a metadata value. */
  predicate Truthy(v: MetaValue)
  {
    match v
    case Text(s) => s != ""
    case Int(n) => n != 0
    case Bool(b) => b
  }

  /** Python's `str(n)` for any integer. */
  function IntString(n: int): (r: string)
    ensures r != [] && AllDigits(r[1..]) && (IsDigit(r[0]) || r[0] == '-')
    ensures n < 0 <==> r[0] == '-'
  {
    if n < 0 then "-" + DecimalString(-n) else DecimalString(n)
  }

  /** `int(str(n)) == n`: the text names the number it was made from. */
  lemma IntStringValue(n: int)
    ensures ParseInt(IntString(n)) == Some(n)
  {
    if n < 0 {
      var digits := DecimalString(-n);
      assert IntString(n)[1..] == digits;
      StripUnchanged(IntString(n));
      DecimalValue(-n);
    } else {
      ParseDecimal(n);
    }
  }

  /** Python's `str()` of a metadata value. */
  function Shown(v: MetaValue): string
  {
    match v
    case Text(s) => s
    case Int(n) => IntString(n)
    case Bool(b) => if b then "True" else "False"
  }

  /** A document of the pipeline. */
  datatype Doc = Doc(id: string, text: string, metadata: map<string, MetaValue>)

  // ---------------------------------------------------------------------
  // `ExactDeduplication`
  // ---------------------------------------------------------------------

  /** The hashes of a run of documents. */
  function Hashes(docs: seq<Doc>, hash: Doc -> string): set<string>
  {
    set i | 0 <= i < |docs| :: hash(docs[i])
  }

  /** The documents that pass when `seen` holds the hashes met before: each one whose hash is new. */
  function Survivors(seen: set<string>, docs: seq<Doc>, hash: Doc -> string): seq<Doc>
  {
    if docs == [] then []
    else
      var init := docs[..|docs| - 1];
      var last := docs[|docs| - 1];
      Survivors(seen, init, hash) + (if hash(last) in seen + Hashes(init, hash) then [] else [last])
  }

  /** Whether document `i` is the first of its hash, after the hashes already seen. */
  predicate FirstOfHash(seen: set<string>, docs: seq<Doc>, hash: Doc -> string, i: nat)
    requires i < |docs|
  {
    hash(docs[i]) !in seen && forall j :: 0 <= j < i ==> hash(docs[j]) != hash(docs[i])
  }

  /** The positions of the surviving documents, in increasing order. */
  function FirstIndices(seen: set<string>, docs: seq<Doc>, hash: Doc -> string): seq<nat>
  {
    if docs == [] then []
    else
      var init := docs[..|docs| - 1];
      FirstIndices(seen, init, hash)
        + (if hash(docs[|docs| - 1]) in seen + Hashes(init, hash) then [] else [|docs| - 1])
  }

  /**
   * The exact step keeps exactly the first document of each hash not seen
   * before, in input order: the survivors are the documents at increasing
   * positions, and a position is among them exactly when its document is
   * the first of its hash.
   */
  lemma {:induction false} SurvivorsAreFirsts(seen: set<string>, docs: seq<Doc>, hash: Doc -> string)
    ensures var idx := FirstIndices(seen, docs, hash);
            var out := Survivors(seen, docs, hash);
            |idx| == |out|
            && (forall k :: 0 <= k < |idx| ==> idx[k] < |docs| && out[k] == docs[idx[k]])
            && (forall k, l :: 0 <= k < l < |idx| ==> idx[k] < idx[l])
            && (forall i :: 0 <= i < |docs| ==> (i in idx <==> FirstOfHash(seen, docs, hash, i)))
  {
    if docs != [] {
      var init := docs[..|docs| - 1];
      var n := |docs| - 1;
      SurvivorsAreFirsts(seen, init, hash);
      assert forall j :: 0 <= j < n ==> init[j] == docs[j];
      forall i | 0 <= i < n
        ensures FirstOfHash(seen, init, hash, i) <==> FirstOfHash(seen, docs, hash, i)
      {
      }
      assert FirstOfHash(seen, docs, hash, n) <==> hash(docs[n]) !in seen + Hashes(init, hash) by {
        if hash(docs[n]) in Hashes(init, hash) {
          var j :| 0 <= j < n && hash(init[j]) == hash(docs[n]);
          assert hash(docs[j]) == hash(docs[n]);
        }
      }
    }
  }

  /** No two survivors share a hash, and none has a hash seen before. */
  lemma SurvivorsDistinct(seen: set<string>, docs: seq<Doc>, hash: Doc -> string)
    ensures var out := Survivors(seen, docs, hash);
            (forall k :: 0 <= k < |out| ==> hash(out[k]) !in seen)
            && (forall k, l :: 0 <= k < l < |out| ==> hash(out[k]) != hash(out[l]))
  {
    SurvivorsAreFirsts(seen, docs, hash);
    var idx := FirstIndices(seen, docs, hash);
    var out := Survivors(seen, docs, hash);
    forall k, l | 0 <= k < l < |out|
      ensures hash(out[k]) != hash(out[l])
    {
      assert idx[l] in idx;
      assert FirstOfHash(seen, docs, hash, idx[l]);
    }
    forall k | 0 <= k < |out|
      ensures hash(out[k]) !in seen
    {
      assert idx[k] in idx;
    }
  }

  /** The exact deduplication step; its set of seen hashes lives as long as the step. */
  class ExactDeduplication {
    var seenHashes: set<string>

    constructor()
      ensures seenHashes == {}
    {
      seenHashes := {};
    }

    /** `run`: a document is passed on when its hash is new, and its hash becomes seen. */
    method Run(data: seq<Doc>, hash: Doc -> string) returns (out: seq<Doc>)
      modifies this
      ensures out == Survivors(old(seenHashes), data, hash)
      ensures seenHashes == old(seenHashes) + Hashes(data, hash)
    {
      out := [];
      var i := 0;
      while i < |data|
        invariant 0 <= i <= |data|
        invariant out == Survivors(old(seenHashes), data[..i], hash)
        invariant seenHashes == old(seenHashes) + Hashes(data[..i], hash)
      {
        assert data[..i + 1][..i] == data[..i];
        assert Hashes(data[..i + 1], hash) == Hashes(data[..i], hash) + {hash(data[i])} by {
          assert forall j :: 0 <= j < i ==> data[..i + 1][j] == data[..i][j];
          assert data[..i + 1][i] == data[i];
        }
        var docHash := hash(data[i]);
        if docHash !in seenHashes {
          seenHashes := seenHashes + {docHash};
          out := out + [data[i]];
        }
        i := i + 1;
      }
      assert data[..i] == data;
    }
  }

  // ---------------------------------------------------------------------
  // `MinhashDedupFilter`
  // ---------------------------------------------------------------------

  /** `_extract_yyyy_mm_dd`: the first ten characters of the value's text when they look like a date. */
  function ExtractDate(raw: Option<MetaValue>): (r: Option<string>)
    ensures r.Some? <==> raw.Some? && Truthy(raw.value) && |Shown(raw.value)| >= 10
                         && Shown(raw.value)[4] == '-' && Shown(raw.value)[7] == '-'
    ensures r.Some? ==> |r.value| == 10 && r.value == Shown(raw.value)[..10]
  {
    if raw.None? || !Truthy(raw.value) then None
    else
      var s := Shown(raw.value);
      if |s| < 10 then None
      else
        var datePart := s[..10];
        assert datePart[4..5] == [s[4]] && datePart[7..8] == [s[7]];
        if datePart[4..5] != "-" || datePart[7..8] != "-" then None
        else Some(datePart)
  }

  /** An ISO timestamp keeps its date: `2024-05-01T09:30:00` gives `2024-05-01`. */
  lemma IsoDateKept(date: string, rest: string)
    requires |date| == 10 && date[4] == '-' && date[7] == '-'
    ensures ExtractDate(Some(Text(date + rest))) == Some(date)
  {
    assert (date + rest)[..10] == date;
  }

  /** An extracted date is extracted again unchanged. */
  lemma ExtractIdempotent(raw: Option<MetaValue>)
    requires ExtractDate(raw).Some?
    ensures ExtractDate(Some(Text(ExtractDate(raw).value))) == ExtractDate(raw)
  {
    var d := ExtractDate(raw).value;
    assert d[..10] == d;
  }

  /** Numbers and flags never give a date: their text has no `-` after the first position. */
  lemma NonTextNoDate(v: MetaValue)
    requires !v.Text?
    ensures ExtractDate(Some(v)).None?
  {
    if v.Int? {
      var s := IntString(v.n);
      if |s| >= 10 {
        assert s[4] == s[1..][3];
        assert IsDigit(s[4]);
      }
    }
  }

  /** The metadata keys the filter writes. */
  const ClusterIdKey := "minhash_cluster_id"
  const DuplicateKey := "is_duplicate"
  const DropReasonKey := "drop_reason"

  /** What happens to one document: passed on, or dropped with its reason. */
  datatype Outcome = Forwarded(doc: Doc) | Dropped(doc: Doc)

  /** `_drop_doc`: the flag and the reason go into the metadata. */
  function Drop(doc: Doc, reason: string, isDuplicate: bool): (r: Outcome)
    ensures r.Dropped? && r.doc.id == doc.id
    ensures r.doc.metadata == doc.metadata[DuplicateKey := Bool(isDuplicate)][DropReasonKey := Text(reason)]
  {
    Dropped(doc.(metadata := doc.metadata[DuplicateKey := Bool(isDuplicate)][DropReasonKey := Text(reason)]))
  }

  /** `{doc_index: cluster_id for doc_index, cluster_id in tuples}`: a later pair wins. */
  function ClusterMap(pairs: seq<(nat, nat)>): map<nat, nat>
  {
    if pairs == [] then map[]
    else ClusterMap(pairs[..|pairs| - 1])[pairs[|pairs| - 1].0 := pairs[|pairs| - 1].1]
  }

  /** `doc_to_cluster.get(idx, -1)`. */
  function ClusterOf(clusters: map<nat, nat>, idx: nat): int
  {
    if idx in clusters then clusters[idx] else -1
  }

  /** The document with its cluster id recorded. */
  function Tagged(doc: Doc, cid: int): Doc
  {
    doc.(metadata := doc.metadata[ClusterIdKey := Int(cid)])
  }

  /** The date of a tagged document, read from its metadata. */
  function DateOf(doc: Doc, dateKey: string): Option<string>
  {
    ExtractDate(if dateKey in doc.metadata then Some(doc.metadata[dateKey]) else None)
  }

  /** The (cluster, (id, date)) key of a clustered document with a valid date. */
  function KeyOf(doc: Doc, cid: int, dateKey: string): Option<(int, (string, string))>
  {
    if cid == -1 then None
    else
      var date := DateOf(Tagged(doc, cid), dateKey);
      if date.None? then None else Some((cid, (doc.id, date.value)))
  }

  /** The (id, date) keys already kept for a cluster. */
  function SeenIn(seen: map<int, set<(string, string)>>, cid: int): set<(string, string)>
  {
    if cid in seen then seen[cid] else {}
  }

  /** One document of the loop: its outcome and the kept keys after it. */
  function Step(doc: Doc, cid: int, dateKey: string, seen: map<int, set<(string, string)>>)
    : (Outcome, map<int, set<(string, string)>>)
  {
    var tagged := Tagged(doc, cid);
    var key := KeyOf(doc, cid, dateKey);
    if cid == -1 then (Forwarded(tagged), seen)
    else if key.None? then (Drop(tagged, "invalid metadata date", false), seen)
    else if key.value.1 in SeenIn(seen, cid) then (Drop(tagged, "same_patient_same_day_in_cluster", true), seen)
    else (Forwarded(tagged.(metadata := tagged.metadata[DuplicateKey := Bool(false)])),
          seen[cid := SeenIn(seen, cid) + {key.value.1}])
  }

  /** The loop over the documents with their positions: the outcomes and the kept keys. */
  function Outcomes(data: seq<Doc>, clusters: map<nat, nat>, dateKey: string): (r: (seq<Outcome>, map<int, set<(string, string)>>))
    ensures |r.0| == |data|
    ensures forall i :: 0 <= i < |data| ==>
              r.0[i].doc.id == data[i].id && r.0[i].doc.text == data[i].text
              && ClusterIdKey in r.0[i].doc.metadata && r.0[i].doc.metadata[ClusterIdKey] == Int(ClusterOf(clusters, i))
  {
    if data == [] then ([], map[])
    else
      var before := Outcomes(data[..|data| - 1], clusters, dateKey);
      var step := Step(data[|data| - 1], ClusterOf(clusters, |data| - 1), dateKey, before.1);
      (before.0 + [step.0], step.1)
  }

  /** What `run` does: without a cluster file every document is passed on untouched. */
  function FilterSpec(data: seq<Doc>, clusterFile: Option<seq<(nat, nat)>>, dateKey: string): (r: seq<Outcome>)
    ensures |r| == |data|
    ensures forall i :: 0 <= i < |data| ==> r[i].doc.id == data[i].id && r[i].doc.text == data[i].text
    ensures clusterFile.None? ==> forall i :: 0 <= i < |data| ==> r[i] == Forwarded(data[i])
  {
    match clusterFile
    case None => seq(|data|, i requires 0 <= i < |data| => Forwarded(data[i]))
    case Some(pairs) => Outcomes(data, ClusterMap(pairs), dateKey).0
  }

  /** `MinhashDedupFilter.run` for one rank: the cluster file's pairs, when the file exists. */
  method MinhashRun(data: seq<Doc>, clusterFile: Option<seq<(nat, nat)>>, dateKey: string) returns (outcomes: seq<Outcome>)
    ensures outcomes == FilterSpec(data, clusterFile, dateKey)
  {
    outcomes := [];
    if clusterFile.None? {
      var i := 0;
      while i < |data|
        invariant 0 <= i <= |data|
        invariant outcomes == seq(i, k requires 0 <= k < i => Forwarded(data[k]))
      {
        outcomes := outcomes + [Forwarded(data[i])];
        i := i + 1;
      }
      return;
    }
    var pairs := clusterFile.value;
    var docToCluster: map<nat, nat> := map[];
    var p := 0;
    while p < |pairs|
      invariant 0 <= p <= |pairs|
      invariant docToCluster == ClusterMap(pairs[..p])
    {
      assert pairs[..p + 1][..p] == pairs[..p];
      docToCluster := docToCluster[pairs[p].0 := pairs[p].1];
      p := p + 1;
    }
    assert pairs[..p] == pairs;
    var clusterSeenRecords: map<int, set<(string, string)>> := map[];
    var idx := 0;
    while idx < |data|
      invariant 0 <= idx <= |data|
      invariant (outcomes, clusterSeenRecords) == Outcomes(data[..idx], docToCluster, dateKey)
    {
      assert data[..idx + 1][..idx] == data[..idx];
      var outcome, seen' := DocStep(data[idx], ClusterOf(docToCluster, idx), dateKey, clusterSeenRecords);
      outcomes := outcomes + [outcome];
      clusterSeenRecords := seen';
      idx := idx + 1;
    }
    assert data[..idx] == data;
  }

  /** The body of the loop for one document. */
  method DocStep(doc: Doc, cid: int, dateKey: string, seen: map<int, set<(string, string)>>)
    returns (outcome: Outcome, seen': map<int, set<(string, string)>>)
    ensures (outcome, seen') == Step(doc, cid, dateKey, seen)
  {
    var tagged := doc.(metadata := doc.metadata[ClusterIdKey := Int(cid)]);
    if cid == -1 {
      return Forwarded(tagged), seen;
    }
    var rawEvtDate := if dateKey in tagged.metadata then Some(tagged.metadata[dateKey]) else None;
    var evtDate := ExtractDate(rawEvtDate);
    if evtDate.None? {
      return Drop(tagged, "invalid metadata date", false), seen;
    }
    var recordKey := (doc.id, evtDate.value);
    var kept := if cid in seen then seen[cid] else {};
    if recordKey in kept {
      return Drop(tagged, "same_patient_same_day_in_cluster", true), seen;
    }
    seen' := seen[cid := kept + {recordKey}];
    outcome := Forwarded(tagged.(metadata := tagged.metadata[DuplicateKey := Bool(false)]));
  }

  /** The outcomes of a prefix are the prefix of the outcomes. */
  lemma {:induction false} OutcomesPrefix(data: seq<Doc>, clusters: map<nat, nat>, dateKey: string, n: nat)
    requires n <= |data|
    ensures Outcomes(data[..n], clusters, dateKey).0 == Outcomes(data, clusters, dateKey).0[..n]
  {
    if n < |data| {
      var init := data[..|data| - 1];
      OutcomesPrefix(init, clusters, dateKey, n);
      assert init[..n] == data[..n];
    } else {
      assert data[..n] == data;
    }
  }

  /** The outcome of document `i` is its step against the keys kept before it. */
  lemma OutcomeAt(data: seq<Doc>, clusters: map<nat, nat>, dateKey: string, i: nat)
    requires i < |data|
    ensures Outcomes(data, clusters, dateKey).0[i]
            == Step(data[i], ClusterOf(clusters, i), dateKey, Outcomes(data[..i], clusters, dateKey).1).0
  {
    OutcomesPrefix(data, clusters, dateKey, i + 1);
    assert data[..i + 1][..i] == data[..i];
  }

  /** A kept key: a cluster id with a document id and a date. */
  type DupKey = (int, (string, string))

  /** The keys of the documents, position by position. */
  function KeysOf(data: seq<Doc>, clusters: map<nat, nat>, dateKey: string): (r: seq<Option<DupKey>>)
    ensures |r| == |data|
    ensures forall j :: 0 <= j < |data| ==> r[j] == KeyOf(data[j], ClusterOf(clusters, j), dateKey)
  {
    seq(|data|, j requires 0 <= j < |data| => KeyOf(data[j], ClusterOf(clusters, j), dateKey))
  }

  /** The kept keys with one more key, if there is one. */
  function AddKey(seen: map<int, set<(string, string)>>, key: Option<DupKey>): map<int, set<(string, string)>>
  {
    if key.None? then seen else seen[key.value.0 := SeenIn(seen, key.value.0) + {key.value.1}]
  }

  /** The kept keys after a sequence of keys. */
  function SeenAfter(keys: seq<Option<DupKey>>): map<int, set<(string, string)>>
  {
    if keys == [] then map[] else AddKey(SeenAfter(keys[..|keys| - 1]), keys[|keys| - 1])
  }

  /** A key is kept exactly when it occurs among the keys. */
  lemma {:induction false} SeenAfterMeaning(keys: seq<Option<DupKey>>, c: int, k: (string, string))
    ensures k in SeenIn(SeenAfter(keys), c) <==> Some((c, k)) in keys
  {
    if keys != [] {
      var init := keys[..|keys| - 1];
      SeenAfterMeaning(init, c, k);
      assert keys == init + [keys[|keys| - 1]];
    }
  }

  /** A step keeps what adding its key keeps: a key already kept changes nothing. */
  lemma StepAddsKey(doc: Doc, cid: int, dateKey: string, seen: map<int, set<(string, string)>>)
    ensures Step(doc, cid, dateKey, seen).1 == AddKey(seen, KeyOf(doc, cid, dateKey))
  {
    var key := KeyOf(doc, cid, dateKey);
    if key.Some? && key.value.1 in SeenIn(seen, cid) {
      assert key.value.0 == cid && cid in seen;
      assert SeenIn(seen, cid) + {key.value.1} == seen[cid];
      assert seen[cid := seen[cid]] == seen;
    }
  }

  /** The loop's kept keys are the keys of the documents added in order. */
  lemma {:induction false} OutcomesSeen(data: seq<Doc>, clusters: map<nat, nat>, dateKey: string)
    ensures Outcomes(data, clusters, dateKey).1 == SeenAfter(KeysOf(data, clusters, dateKey))
  {
    if data != [] {
      var n := |data| - 1;
      OutcomesSeen(data[..n], clusters, dateKey);
      StepAddsKey(data[n], ClusterOf(clusters, n), dateKey, Outcomes(data[..n], clusters, dateKey).1);
      var keys := KeysOf(data, clusters, dateKey);
      assert keys[..n] == KeysOf(data[..n], clusters, dateKey);
    }
  }

  /** The kept keys of a cluster are exactly the keys of the documents so far. */
  lemma SeenMeaning(data: seq<Doc>, clusters: map<nat, nat>, dateKey: string)
    ensures var seen := Outcomes(data, clusters, dateKey).1;
            forall c, k :: k in SeenIn(seen, c) <==>
              exists j :: 0 <= j < |data| && KeyOf(data[j], ClusterOf(clusters, j), dateKey) == Some((c, k))
  {
    OutcomesSeen(data, clusters, dateKey);
    var keys := KeysOf(data, clusters, dateKey);
    forall c, k
      ensures k in SeenIn(SeenAfter(keys), c) <==>
              exists j :: 0 <= j < |data| && KeyOf(data[j], ClusterOf(clusters, j), dateKey) == Some((c, k))
    {
      SeenAfterMeaning(keys, c, k);
    }
  }

  /**
   * The filter's verdict on document `i`: a document outside every cluster
   * is passed on; a clustered one without a valid date is dropped and not
   * marked a duplicate; a clustered one with a valid date is dropped as a
   * duplicate exactly when an earlier document had the same cluster, id
   * and date, and is otherwise passed on marked as no duplicate.
   */
  lemma ClusterVerdict(data: seq<Doc>, clusters: map<nat, nat>, dateKey: string, i: nat)
    requires i < |data|
    ensures var o := Outcomes(data, clusters, dateKey).0[i];
            var cid := ClusterOf(clusters, i);
            var tagged := Tagged(data[i], cid);
            var key := KeyOf(data[i], cid, dateKey);
            (cid == -1 ==> o == Forwarded(tagged))
            && (cid != -1 && key.None? ==> o == Drop(tagged, "invalid metadata date", false))
            && (key.Some? ==>
                  ((o.Dropped? <==> exists j :: 0 <= j < i && KeyOf(data[j], ClusterOf(clusters, j), dateKey) == key)
                   && (o.Dropped? ==> o == Drop(tagged, "same_patient_same_day_in_cluster", true))
                   && (o.Forwarded? ==> o.doc == tagged.(metadata := tagged.metadata[DuplicateKey := Bool(false)]))))
  {
    OutcomeAt(data, clusters, dateKey, i);
    SeenMeaning(data[..i], clusters, dateKey);
    assert forall j :: 0 <= j < i ==> data[..i][j] == data[j];
  }

  /** Every document is passed on or dropped, never both, and the same document comes out. */
  lemma OneOutcomeEach(data: seq<Doc>, clusterFile: Option<seq<(nat, nat)>>, dateKey: string)
    ensures var out := FilterSpec(data, clusterFile, dateKey);
            |out| == |data|
            && forall i :: 0 <= i < |data| ==> (out[i].Forwarded? != out[i].Dropped?) && out[i].doc.id == data[i].id
  {
  }
}
