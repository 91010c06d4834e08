/**
 * `ClinicalSafetyService`: medication and dosage entities found by a
 * biomedical NER model are linked by proximity, the dosage is parsed
 * (grams become milligrams) and compared with the daily limit of a small
 * in-memory drug knowledge graph. The NER model is an input: its entity list
 * for the text, or `None` when the pipeline failed to load.
 */
module Safety {
  import opened Common

  /** One NER entity: its label (`entity_group`), word and character span. */
  datatype Entity = Entity(group: string, word: string, start: int, end: int)

  /** A parsed dosage: the amount and its unit, `mg` or `g`. */
  datatype Dosage = Dosage(amount: nat, unit: string)

  /** A limit exceeded by a linked dosage, amounts in milligrams. */
  datatype Alert = Alert(drug: string, amount: nat, limit: nat)

  /** `drug_knowledge_graph`: daily limits in milligrams by lower-case drug name. */
  const Limits: map<string, nat> := map[
    "panadol" := 4000,
    "paracetamol" := 4000,
    "ibuprofen" := 3200,
    "amoxicillin" := 3000,
    "metformin" := 2550,
    "aspirin" := 4000
  ]

  /** A dosage further than this many characters (centre to centre) is not linked. */
  const MaxLinkDistance: real := 50.0

  // ---------------------------------------------------------------------
  // `_parse_dosage_string`: `re.search(r"(\d+)\s*(mg|g)", s.lower())`
  // ---------------------------------------------------------------------

  /** Length of the run of digits starting at `p`. */
  function DigitRun(t: string, p: nat): (r: nat)
    ensures r > 0 ==> p + r <= |t|
    ensures forall i :: p <= i < p + r ==> IsDigit(t[i])
    decreases |t| - p
  {
    if p < |t| && IsDigit(t[p]) then 1 + DigitRun(t, p + 1) else 0
  }

  /** The unit alternative `(mg|g)` at `q`, `mg` tried first. */
  function UnitAt(t: string, q: nat): Option<string>
  {
    if q + 1 < |t| && t[q] == 'm' && t[q + 1] == 'g' then Some("mg")
    else if q < |t| && t[q] == 'g' then Some("g")
    else None
  }

  /**
   * The match starting at `p`, if any. Greedy `\d+` and `\s*` take their
   * whole runs; giving characters back cannot help, since the unit would then
   * have to start on a digit or a space.
   */
  function MatchAt(t: string, p: nat): Option<Dosage>
  {
    if p < |t| && IsDigit(t[p]) then
      var e := p + DigitRun(t, p);
      var unit := UnitAt(t, e + SpaceRun(t, e));
      if unit.Some? then Some(Dosage(DigitsValue(t[p..e]), unit.value)) else None
    else None
  }

  /** `re.search`: the leftmost position with a match. */
  function SearchFrom(t: string, p: nat): Option<Dosage>
    decreases |t| - p
  {
    if p >= |t| then None
    else if MatchAt(t, p).Some? then MatchAt(t, p)
    else SearchFrom(t, p + 1)
  }

  /** `_parse_dosage_string`; `None` is the `ValueError` for text without a dosage. */
  function ParseDosageString(s: string): Option<Dosage>
  {
    SearchFrom(Lower(s), 0)
  }

  lemma {:induction false} DigitRunIs(t: string, p: nat, k: nat)
    requires p + k <= |t|
    requires forall i :: p <= i < p + k ==> IsDigit(t[i])
    requires p + k == |t| || !IsDigit(t[p + k])
    ensures DigitRun(t, p) == k
    decreases k
  {
    if k > 0 {
      DigitRunIs(t, p + 1, k - 1);
    }
  }

  /** The search passes over a stretch without digits. */
  lemma {:induction false} SearchSkips(t: string, p: nat, q: nat)
    requires p <= q <= |t|
    requires forall i :: p <= i < q ==> !IsDigit(t[i])
    ensures SearchFrom(t, p) == SearchFrom(t, q)
    decreases q - p
  {
    if p < q {
      SearchSkips(t, p + 1, q);
    }
  }

  /** Text without a digit holds no dosage: the `ValueError` path ("two tablets"). */
  lemma NoDigitNoDosage(s: string)
    requires forall i :: 0 <= i < |s| ==> !IsDigit(s[i])
    ensures ParseDosageString(s) == None
  {
    var t := Lower(s);
    SearchSkips(t, 0, |t|);
  }

  /** Digits, then whitespace, then a unit from position `p` on: a match at `p`. */
  lemma MatchDigits(t: string, p: nat, k: nat, sp: nat, unit: string)
    requires k > 0 && p + k + sp + |unit| <= |t|
    requires unit == "mg" || unit == "g"
    requires forall i :: p <= i < p + k ==> IsDigit(t[i])
    requires forall i :: p + k <= i < p + k + sp ==> IsSpace(t[i])
    requires t[p + k + sp..p + k + sp + |unit|] == unit
    ensures MatchAt(t, p) == Some(Dosage(DigitsValue(t[p..p + k]), unit))
  {
    var q := p + k + sp;
    assert t[q] == unit[0] && (unit == "mg" ==> t[q + 1] == 'g');
    DigitRunIs(t, p, k);
    SpaceRunIs(t, p + k, sp);
    assert UnitAt(t, q) == Some(unit);
  }

  /** Lower-casing text without digits, a number, whitespace, a unit and anything keeps that layout. */
  lemma LoweredLayout(prefix: string, digits: string, spaces: string, unit: string, suffix: string)
    requires forall i :: 0 <= i < |prefix| ==> !IsDigit(prefix[i])
    requires AllDigits(digits)
    requires forall i :: 0 <= i < |spaces| ==> IsSpace(spaces[i])
    requires unit == "mg" || unit == "g"
    ensures var t := Lower(prefix + digits + spaces + unit + suffix);
            var p := |prefix|;
            var q := p + |digits| + |spaces|;
            q + |unit| <= |t|
            && (forall i :: 0 <= i < p ==> !IsDigit(t[i]))
            && (forall i :: p <= i < p + |digits| ==> IsDigit(t[i]))
            && t[p..p + |digits|] == digits
            && (forall i :: p + |digits| <= i < q ==> IsSpace(t[i]))
            && t[q..q + |unit|] == unit
  {
    var s := prefix + digits + spaces + unit + suffix;
    var t := Lower(s);
    var p := |prefix|;
    var e := p + |digits|;
    var q := e + |spaces|;
    forall i | 0 <= i < p
      ensures !IsDigit(t[i])
    {
      assert s[i] == prefix[i];
    }
    forall i | p <= i < e
      ensures t[i] == digits[i - p]
    {
      assert s[i] == digits[i - p];
    }
    forall i | e <= i < q
      ensures IsSpace(t[i])
    {
      assert s[i] == spaces[i - e];
    }
    forall i | q <= i < q + |unit|
      ensures t[i] == unit[i - q]
    {
      assert s[i] == unit[i - q];
    }
    assert t[p..e] == digits;
    assert t[q..q + |unit|] == unit;
  }

  /**
   * A rendered dosage parses back: after text without digits, the number,
   * any whitespace and the unit give that number and unit, whatever follows.
   */
  lemma ParseRendered(prefix: string, n: nat, spaces: string, unit: string, suffix: string)
    requires forall i :: 0 <= i < |prefix| ==> !IsDigit(prefix[i])
    requires forall i :: 0 <= i < |spaces| ==> IsSpace(spaces[i])
    requires unit == "mg" || unit == "g"
    ensures ParseDosageString(prefix + DecimalString(n) + spaces + unit + suffix) == Some(Dosage(n, unit))
  {
    var digits := DecimalString(n);
    LoweredLayout(prefix, digits, spaces, unit, suffix);
    var t := Lower(prefix + digits + spaces + unit + suffix);
    SearchDigits(t, |prefix|, |digits|, |spaces|, unit);
    DecimalValue(n);
  }

  /** After a stretch without digits, digits, whitespace and a unit: the search finds them. */
  lemma SearchDigits(t: string, p: nat, k: nat, sp: nat, unit: string)
    requires k > 0 && p + k + sp + |unit| <= |t|
    requires unit == "mg" || unit == "g"
    requires forall i :: 0 <= i < p ==> !IsDigit(t[i])
    requires forall i :: p <= i < p + k ==> IsDigit(t[i])
    requires forall i :: p + k <= i < p + k + sp ==> IsSpace(t[i])
    requires t[p + k + sp..p + k + sp + |unit|] == unit
    ensures SearchFrom(t, 0) == Some(Dosage(DigitsValue(t[p..p + k]), unit))
  {
    MatchDigits(t, p, k, sp, unit);
    SearchSkips(t, 0, p);
  }

  // ---------------------------------------------------------------------
  // `_find_closest_dosage`
  // ---------------------------------------------------------------------

  function Centre(e: Entity): real
  {
    (e.start + e.end) as real / 2.0
  }

  function Distance(a: Entity, b: Entity): real
  {
    var d := Centre(a) - Centre(b);
    if d < 0.0 then -d else d
  }

  /**
   * The index the scan settles on: a candidate replaces the current best
   * when it is strictly nearer and nearer than the link distance.
   */
  function ClosestIndex(drug: Entity, dosages: seq<Entity>): (r: Option<nat>)
    ensures r.Some? ==> r.value < |dosages|
  {
    if dosages == [] then None
    else
      var best := ClosestIndex(drug, dosages[..|dosages| - 1]);
      var i := |dosages| - 1;
      var dist := Distance(drug, dosages[i]);
      if dist < MaxLinkDistance && (best.None? || dist < Distance(drug, dosages[best.value])) then Some(i)
      else best
  }

  function Closest(drug: Entity, dosages: seq<Entity>): Option<Entity>
  {
    var i := ClosestIndex(drug, dosages);
    if i.Some? then Some(dosages[i.value]) else None
  }

  /**
   * `_find_closest_dosage`: `min_dist` starts at infinity (`None` here) and
   * drops with each nearer dosage inside the link distance.
   */
  method FindClosestDosage(drug: Entity, dosages: seq<Entity>) returns (closest: Option<Entity>)
    ensures closest == Closest(drug, dosages)
  {
    if |dosages| == 0 {
      return None;
    }
    var drugPos := Centre(drug);
    closest := None;
    var index: Option<nat> := None;
    var minDist: Option<real> := None;
    var i := 0;
    while i < |dosages|
      invariant 0 <= i <= |dosages|
      invariant index == ClosestIndex(drug, dosages[..i])
      invariant closest == (if index.Some? then Some(dosages[index.value]) else None)
      invariant minDist == (if index.Some? then Some(Distance(drug, dosages[index.value])) else None)
    {
      var dosage := dosages[i];
      var dosePos := Centre(dosage);
      var dist := if drugPos - dosePos < 0.0 then dosePos - drugPos else drugPos - dosePos;
      assert dosages[..i + 1][..i] == dosages[..i];
      if (minDist.None? || dist < minDist.value) && dist < MaxLinkDistance {
        minDist := Some(dist);
        closest := Some(dosage);
        index := Some(i);
      }
      i := i + 1;
    }
    assert dosages[..i] == dosages;
  }

  /**
   * What the scan links: nothing exactly when every dosage is at the link
   * distance or further; otherwise a dosage inside it, no further than any
   * other inside it, and strictly nearer than every earlier one, so a tie
   * keeps the first.
   */
  lemma {:induction false} ClosestIsNearest(drug: Entity, dosages: seq<Entity>)
    ensures ClosestIndex(drug, dosages).None? <==>
              forall j :: 0 <= j < |dosages| ==> Distance(drug, dosages[j]) >= MaxLinkDistance
    ensures ClosestIndex(drug, dosages).Some? ==>
              var i := ClosestIndex(drug, dosages).value;
              Distance(drug, dosages[i]) < MaxLinkDistance
              && (forall j :: 0 <= j < |dosages| && Distance(drug, dosages[j]) < MaxLinkDistance ==>
                    Distance(drug, dosages[i]) <= Distance(drug, dosages[j]))
              && (forall j :: 0 <= j < i ==> Distance(drug, dosages[i]) < Distance(drug, dosages[j]))
  {
    if dosages != [] {
      var init := dosages[..|dosages| - 1];
      ClosestIsNearest(drug, init);
      assert forall j :: 0 <= j < |init| ==> init[j] == dosages[j];
    }
  }

  // ---------------------------------------------------------------------
  // `_detect_rule_violations`
  // ---------------------------------------------------------------------

  /** The entities with one label, in order. */
  function Labelled(entities: seq<Entity>, tag: string): seq<Entity>
  {
    if entities == [] then []
    else
      var e := entities[|entities| - 1];
      Labelled(entities[..|entities| - 1], tag) + (if e.group == tag then [e] else [])
  }

  /** `drug['word'].lower().strip()`: the knowledge-graph key. */
  function DrugName(drug: Entity): string
  {
    Strip(Lower(drug.word))
  }

  /** The dosage in milligrams. */
  function Milligrams(d: Dosage): nat
  {
    if d.unit == "g" then d.amount * 1000 else d.amount
  }

  /**
   * The alert for one drug, if any: it must be in the knowledge graph, have
   * a linked dosage that parses, and that dosage must exceed its limit.
   */
  function AlertFor(drug: Entity, dosages: seq<Entity>): Option<Alert>
  {
    var name := DrugName(drug);
    if name !in Limits then None
    else
      var linked := Closest(drug, dosages);
      if linked.None? then None
      else
        var parsed := ParseDosageString(linked.value.word);
        if parsed.None? then None
        else if Milligrams(parsed.value) > Limits[name] then
          Some(Alert(drug.word, Milligrams(parsed.value), Limits[name]))
        else None
  }

  /**
   * The alerts for a run of drugs, in order, each drug checked by `check`
   * (`AlertFor` in the service).
   */
  function AlertsBy(drugs: seq<Entity>, dosages: seq<Entity>, check: (Entity, seq<Entity>) -> Option<Alert>): seq<Alert>
  {
    if drugs == [] then []
    else
      var a := check(drugs[|drugs| - 1], dosages);
      AlertsBy(drugs[..|drugs| - 1], dosages, check) + (if a.Some? then [a.value] else [])
  }

  function AlertText(a: Alert): string
  {
    "\U{1F6A8} SAFETY ALERT: " + a.drug + " dosage (" + DecimalString(a.amount)
      + "mg) exceeds standard daily limit (" + DecimalString(a.limit) + "mg)."
  }

  function Texts(alerts: seq<Alert>): seq<string>
  {
    if alerts == [] then [] else Texts(alerts[..|alerts| - 1]) + [AlertText(alerts[|alerts| - 1])]
  }

  function TextOf(a: Option<Alert>): Option<string>
  {
    if a.Some? then Some(AlertText(a.value)) else None
  }

  /** One more drug adds its own warning, if any, at the end. */
  lemma AlertsStep(drugs: seq<Entity>, dosages: seq<Entity>, check: (Entity, seq<Entity>) -> Option<Alert>, i: nat)
    requires i < |drugs|
    ensures var w := TextOf(check(drugs[i], dosages));
            Texts(AlertsBy(drugs[..i + 1], dosages, check))
              == Texts(AlertsBy(drugs[..i], dosages, check)) + (if w.Some? then [w.value] else [])
  {
    var done := AlertsBy(drugs[..i], dosages, check);
    var a := check(drugs[i], dosages);
    assert drugs[..i + 1][..i] == drugs[..i];
    assert AlertsBy(drugs[..i + 1], dosages, check) == done + (if a.Some? then [a.value] else []);
    if a.Some? {
      TextsSnoc(done, a.value);
    } else {
      assert done + [] == done;
    }
  }

  lemma TextsSnoc(alerts: seq<Alert>, a: Alert)
    ensures Texts(alerts + [a]) == Texts(alerts) + [AlertText(a)]
  {
    assert (alerts + [a])[..|alerts|] == alerts;
  }

  /** The warnings for the NER output; none without a pipeline. */
  function Violations(entities: Option<seq<Entity>>): seq<string>
  {
    if entities.None? then []
    else Texts(AlertsBy(Labelled(entities.value, "Medication"), Labelled(entities.value, "Dosage"), AlertFor))
  }

  /** The first loop: drugs and dosages separated, other labels dropped. */
  method SeparateEntities(entities: seq<Entity>) returns (drugs: seq<Entity>, dosages: seq<Entity>)
    ensures drugs == Labelled(entities, "Medication")
    ensures dosages == Labelled(entities, "Dosage")
  {
    drugs, dosages := [], [];
    var i := 0;
    while i < |entities|
      invariant 0 <= i <= |entities|
      invariant drugs == Labelled(entities[..i], "Medication")
      invariant dosages == Labelled(entities[..i], "Dosage")
    {
      var ent := entities[i];
      assert entities[..i + 1][..i] == entities[..i];
      if ent.group == "Medication" {
        drugs := drugs + [ent];
      } else if ent.group == "Dosage" {
        dosages := dosages + [ent];
      }
      i := i + 1;
    }
    assert entities[..i] == entities;
  }

  /** A known drug whose linked dosage parses is flagged exactly when the dosage, in milligrams, is over its limit. */
  lemma AlertForIs(drug: Entity, dosages: seq<Entity>, linked: Entity, parsed: Dosage)
    requires DrugName(drug) in Limits
    requires Closest(drug, dosages) == Some(linked)
    requires ParseDosageString(linked.word) == Some(parsed)
    ensures var limit := Limits[DrugName(drug)];
            AlertFor(drug, dosages)
              == if Milligrams(parsed) > limit then Some(Alert(drug.word, Milligrams(parsed), limit)) else None
  {
  }

  /** The body of the drug loop: the warning for one drug, if any. */
  method CheckDrug(drug: Entity, dosages: seq<Entity>) returns (warning: Option<string>)
    ensures warning == TextOf(AlertFor(drug, dosages))
  {
    var drugName := Strip(Lower(drug.word));
    if drugName !in Limits {
      return None;
    }
    var best := FindClosestDosage(drug, dosages);
    warning := None;
    if best.Some? {
      var parsed := ParseDosageString(best.value.word);
      if parsed.Some? {
        var amount := parsed.value.amount;
        if parsed.value.unit == "g" {
          amount := amount * 1000;
        }
        var limit := Limits[drugName];
        AlertForIs(drug, dosages, best.value, parsed.value);
        if amount > limit {
          warning := Some(AlertText(Alert(drug.word, amount, limit)));
        }
      }
    }
  }

  /** `_detect_rule_violations`. */
  method DetectRuleViolations(entities: Option<seq<Entity>>) returns (warnings: seq<string>)
    ensures warnings == Violations(entities)
  {
    if entities.None? {
      return [];
    }
    warnings := [];
    var drugs, dosages := SeparateEntities(entities.value);
    var i := 0;
    while i < |drugs|
      invariant 0 <= i <= |drugs|
      invariant warnings == Texts(AlertsBy(drugs[..i], dosages, AlertFor))
    {
      var warning := CheckDrug(drugs[i], dosages);
      AlertsStep(drugs, dosages, AlertFor, i);
      if warning.Some? {
        warnings := warnings + [warning.value];
      }
      i := i + 1;
    }
    assert drugs[..i] == drugs;
  }

  // ---------------------------------------------------------------------
  // Properties
  // ---------------------------------------------------------------------

  /** An alert names its drug, which the knowledge graph knows, and an amount strictly above its limit. */
  predicate Grounded(a: Alert, drug: Entity)
  {
    a.amount > a.limit && a.drug == drug.word && DrugName(drug) in Limits && Limits[DrugName(drug)] == a.limit
  }

  /** The one-drug check raises only grounded alerts, and none for a drug the knowledge graph lacks. */
  lemma AlertForGrounded(drug: Entity, dosages: seq<Entity>)
    ensures AlertFor(drug, dosages).Some? ==> Grounded(AlertFor(drug, dosages).value, drug)
    ensures DrugName(drug) !in Limits ==> AlertFor(drug, dosages).None?
  {
  }

  /** Over a run of drugs, the fold raises at most one alert per drug, each the per-drug check's alert for one of them. */
  lemma {:induction false} AlertsByFrom(drugs: seq<Entity>, dosages: seq<Entity>, check: (Entity, seq<Entity>) -> Option<Alert>)
    ensures |AlertsBy(drugs, dosages, check)| <= |drugs|
    ensures forall k :: 0 <= k < |AlertsBy(drugs, dosages, check)| ==>
              exists j :: 0 <= j < |drugs| && check(drugs[j], dosages) == Some(AlertsBy(drugs, dosages, check)[k])
  {
    if drugs != [] {
      var init := drugs[..|drugs| - 1];
      var last := |drugs| - 1;
      AlertsByFrom(init, dosages, check);
      var done := AlertsBy(init, dosages, check);
      var a := check(drugs[last], dosages);
      assert AlertsBy(drugs, dosages, check) == done + (if a.Some? then [a.value] else []);
      forall k | 0 <= k < |AlertsBy(drugs, dosages, check)|
        ensures exists j :: 0 <= j < |drugs| && check(drugs[j], dosages) == Some(AlertsBy(drugs, dosages, check)[k])
      {
        var b := AlertsBy(drugs, dosages, check)[k];
        if k < |done| {
          assert b == done[k];
          var j :| 0 <= j < |init| && check(init[j], dosages) == Some(b);
          assert drugs[j] == init[j];
        } else {
          assert check(drugs[last], dosages) == Some(b);
        }
      }
    }
  }

  /**
   * Every alert of the service comes from a drug of the input and is
   * grounded in it; there is at most one alert per drug.
   */
  lemma AlertsGrounded(drugs: seq<Entity>, dosages: seq<Entity>)
    ensures |AlertsBy(drugs, dosages, AlertFor)| <= |drugs|
    ensures forall k :: 0 <= k < |AlertsBy(drugs, dosages, AlertFor)| ==>
              exists j :: 0 <= j < |drugs| && Grounded(AlertsBy(drugs, dosages, AlertFor)[k], drugs[j])
  {
    var alerts := AlertsBy(drugs, dosages, AlertFor);
    AlertsByFrom(drugs, dosages, AlertFor);
    forall k | 0 <= k < |alerts|
      ensures exists j :: 0 <= j < |drugs| && Grounded(alerts[k], drugs[j])
    {
      var j :| 0 <= j < |drugs| && AlertFor(drugs[j], dosages) == Some(alerts[k]);
      AlertForGrounded(drugs[j], dosages);
    }
  }

  /** Drugs the knowledge graph does not know never raise an alert ("UnknownDrug 9000mg"). */
  lemma {:induction false} UnknownDrugsIgnored(drugs: seq<Entity>, dosages: seq<Entity>)
    requires forall j :: 0 <= j < |drugs| ==> DrugName(drugs[j]) !in Limits
    ensures AlertsBy(drugs, dosages, AlertFor) == []
  {
    if drugs != [] {
      UnknownDrugsIgnored(drugs[..|drugs| - 1], dosages);
      AlertForGrounded(drugs[|drugs| - 1], dosages);
    }
  }

  /** A drug with no dosage inside the link distance raises no alert, whatever the dose. */
  lemma FarDosageIgnored(drug: Entity, dosages: seq<Entity>)
    requires forall j :: 0 <= j < |dosages| ==> Distance(drug, dosages[j]) >= MaxLinkDistance
    ensures AlertFor(drug, dosages) == None
  {
    ClosestIsNearest(drug, dosages);
  }

  /** With a single dosage inside the link distance, that dosage is the one linked and parsed. */
  lemma LinkedAlert(drug: Entity, dosage: Entity, d: Dosage)
    requires Distance(drug, dosage) < MaxLinkDistance
    requires ParseDosageString(dosage.word) == Some(d)
    ensures AlertFor(drug, [dosage]) ==
              if DrugName(drug) in Limits && Milligrams(d) > Limits[DrugName(drug)]
              then Some(Alert(drug.word, Milligrams(d), Limits[DrugName(drug)])) else None
  {
    assert [dosage][..0] == [];
    assert Closest(drug, [dosage]) == Some(dosage);
  }

  /**
   * For a known drug whose only nearby dosage reads `<n> mg`, the alert
   * fires exactly when `n` is strictly above the limit (4000 mg of panadol
   * does not alert, 5000 mg does).
   */
  lemma AlertIffAboveLimit(drug: Entity, dosage: Entity, prefix: string, n: nat, spaces: string, unit: string)
    requires DrugName(drug) in Limits
    requires Distance(drug, dosage) < MaxLinkDistance
    requires forall i :: 0 <= i < |prefix| ==> !IsDigit(prefix[i])
    requires forall i :: 0 <= i < |spaces| ==> IsSpace(spaces[i])
    requires unit == "mg" || unit == "g"
    requires dosage.word == prefix + DecimalString(n) + spaces + unit
    ensures var mg := if unit == "g" then 1000 * n else n;
            AlertFor(drug, [dosage]).Some? <==> mg > Limits[DrugName(drug)]
    ensures AlertFor(drug, [dosage]).Some? ==>
              AlertFor(drug, [dosage]).value.amount == (if unit == "g" then 1000 * n else n)
  {
    ParseRendered(prefix, n, spaces, unit, "");
    assert prefix + DecimalString(n) + spaces + unit + "" == dosage.word;
    LinkedAlert(drug, dosage, Dosage(n, unit));
  }

  /** Grams are compared as milligrams: `5g` and `5000mg` give the same alert. */
  lemma GramsAsMilligrams(drug: Entity, grams: Entity, milligrams: Entity, n: nat)
    requires Distance(drug, grams) < MaxLinkDistance && Distance(drug, milligrams) < MaxLinkDistance
    requires grams.word == DecimalString(n) + "g" && milligrams.word == DecimalString(1000 * n) + "mg"
    ensures AlertFor(drug, [grams]) == AlertFor(drug, [milligrams])
  {
    ParseRendered("", n, "", "g", "");
    ParseRendered("", 1000 * n, "", "mg", "");
    assert "" + DecimalString(n) + "" + "g" + "" == grams.word;
    assert "" + DecimalString(1000 * n) + "" + "mg" + "" == milligrams.word;
    LinkedAlert(drug, grams, Dosage(n, "g"));
    LinkedAlert(drug, milligrams, Dosage(1000 * n, "mg"));
  }
}
