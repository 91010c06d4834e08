/**
 * Speaker-role tagging: the classifier's answer is read as a map from turn
 * position to role, and every turn gets its role from that map, or
 * `Unknown` when the position is missing.
 */
module RoleService {
  import opened Common
  import opened Json
  import opened Schemas

  const UnknownRole: string := "Unknown"

  /** `role_map.get(i, "Unknown")`. */
  function RoleAt(roleMap: map<int, string>, i: int): string
  {
    if i in roleMap then roleMap[i] else UnknownRole
  }

  /** The turns with each role replaced from the map; contents untouched. */
  function Tagged(turns: seq<DialogueTurn>, roleMap: map<int, string>): seq<DialogueTurn>
  {
    seq(|turns|, i requires 0 <= i < |turns| => turns[i].(role := RoleAt(roleMap, i)))
  }

  /**
   * The classifier's answer with a markdown fence removed: the text inside the
   * first ```json block, else the text after the first ```, else the answer.
   */
  function Unfence(answer: string): string
  {
    var text := Strip(answer);
    if Contains(text, "```json") then Strip(Before(SecondPiece(text, "```json"), "```"))
    else if Contains(text, "```") then Strip(SecondPiece(text, "```"))
    else text
  }

  /** A body in a ```json fence is recovered, stripped. */
  lemma UnfenceJsonBlock(body: string)
    requires '`' !in body
    ensures Unfence("```json" + body + "```") == Strip(body)
  {
    var open, close := "```json", "```";
    var text := open + body + close;
    assert text == open + (body + close);
    StripUnchanged(text);
    AfterLeading(open, body + close);
    NoJsonFence(body);
    BeforeAbsent(body + close, open);
    assert OccursAt(body + close, close, |body|) by {
      assert (body + close)[|body|..|body| + 3] == close;
    }
    BeforeTickFree(body, close, close);
  }

  /** A ```json marker cannot occur in a backtick-free body followed by one fence. */
  lemma NoJsonFence(body: string)
    requires '`' !in body
    ensures forall j: nat :: !OccursAt(body + "```", "```json", j)
  {
    TickFreePrefix(body, "```json", "```");
    forall j: nat | j >= |body| ensures !OccursAt(body + "```", "```json", j) {
    }
  }

  /**
   * `{int(k): v for k, v in raw_map.items()}` over string role values: later
   * keys overwrite earlier ones that convert to the same integer; a key that
   * is not an integer literal makes the whole conversion fail.
   */
  function IntKeyed(fields: seq<(string, Json)>): Option<map<int, string>>
  {
    IntKeyedInto(map[], fields)
  }

  function IntKeyedInto(acc: map<int, string>, fields: seq<(string, Json)>): Option<map<int, string>>
    decreases |fields|
  {
    if fields == [] then Some(acc)
    else
      match ParseInt(fields[0].0)
      case None => None
      case Some(k) => IntKeyedInto(if fields[0].1.JStr? then acc[k := fields[0].1.s] else acc, fields[1..])
  }

  /**
   * `_get_roles_from_llm`: the role map read from the classifier's answer, or
   * the empty map when the call failed (`None`), the answer does not decode,
   * is not an object, or has a key that is not an integer.
   */
  function RolesFromAnswer(answer: Option<string>, loads: Decoder): (r: map<int, string>)
    ensures answer.None? ==> r == map[]
    ensures answer.Some? && loads(Unfence(answer.value)).None? ==> r == map[]
  {
    if answer.None? then map[]
    else match loads(Unfence(answer.value))
      case Some(JObj(fields)) =>
        (match IntKeyed(fields) case Some(m) => m case None => map[])
      case _ => map[]
  }

  /**
   * `assign_roles`: one output turn per input turn, in order, with the same
   * content and the role the answer gives its position (or `Unknown`).
   */
  method AssignRoles(conversation: seq<DialogueTurn>, answer: Option<string>, loads: Decoder)
    returns (r: seq<DialogueTurn>)
    ensures |r| == |conversation|
    ensures forall i :: 0 <= i < |r| ==>
              r[i].content == conversation[i].content && r[i].role == RoleAt(RolesFromAnswer(answer, loads), i)
    ensures r == Tagged(conversation, RolesFromAnswer(answer, loads))
  {
    if conversation == [] {
      return [];
    }
    var roleMap := RolesFromAnswer(answer, loads);
    r := [];
    var i := 0;
    while i < |conversation|
      invariant 0 <= i <= |conversation| && |r| == i
      invariant forall j :: 0 <= j < i ==> r[j] == conversation[j].(role := RoleAt(roleMap, j))
    {
      r := r + [conversation[i].(role := RoleAt(roleMap, i))];
      i := i + 1;
    }
  }

  /** A failed or unreadable classification leaves every turn `Unknown`. */
  lemma FailedTaggingIsUnknown(conversation: seq<DialogueTurn>)
    ensures forall i :: 0 <= i < |conversation| ==> Tagged(conversation, map[])[i].role == UnknownRole
  {
  }

  /**
   * The role the answer's fields give position `k`: the value of the last
   * field whose key converts to `k` and whose value is a string, if any.
   */
  function LastRole(fields: seq<(string, Json)>, k: int): Option<string>
    decreases |fields|
  {
    if fields == [] then None
    else match LastRole(fields[1..], k)
      case Some(role) => Some(role)
      case None => if ParseInt(fields[0].0) == Some(k) && fields[0].1.JStr? then Some(fields[0].1.s) else None
  }

  /** The conversion succeeds exactly when every key is an integer literal. */
  lemma {:induction false} IntKeyedDefined(acc: map<int, string>, fields: seq<(string, Json)>)
    ensures IntKeyedInto(acc, fields).Some? <==> forall i :: 0 <= i < |fields| ==> ParseInt(fields[i].0).Some?
    decreases |fields|
  {
    if fields != [] && ParseInt(fields[0].0).Some? {
      var k := ParseInt(fields[0].0).value;
      IntKeyedDefined(if fields[0].1.JStr? then acc[k := fields[0].1.s] else acc, fields[1..]);
      assert forall i :: 1 <= i < |fields| ==> fields[i] == fields[1..][i - 1];
    }
  }

  /**
   * When it succeeds, position `k` gets the role of the last string field
   * whose key converts to `k`, and keeps what it had without one.
   */
  lemma {:induction false} IntKeyedLastWins(acc: map<int, string>, fields: seq<(string, Json)>, k: int)
    requires IntKeyedInto(acc, fields).Some?
    ensures var r := IntKeyedInto(acc, fields).value;
            (k in r <==> k in acc || LastRole(fields, k).Some?)
            && (LastRole(fields, k).Some? ==> r[k] == LastRole(fields, k).value)
            && (LastRole(fields, k).None? && k in acc ==> r[k] == acc[k])
    decreases |fields|
  {
    if fields != [] {
      var k0 := ParseInt(fields[0].0).value;
      IntKeyedLastWins(if fields[0].1.JStr? then acc[k0 := fields[0].1.s] else acc, fields[1..], k);
    }
  }

  /** From field `n` on, position `k` is named only by the field `"k"`, if that field is among them. */
  lemma {:induction false} PositionalLastRole(roles: seq<string>, n: nat, k: nat)
    requires n <= |roles|
    ensures LastRole(PositionalFields(roles)[n..], k) == (if n <= k < |roles| then Some(roles[k]) else None)
    decreases |roles| - n
  {
    var fields := PositionalFields(roles)[n..];
    if n < |roles| {
      PositionalLastRole(roles, n + 1, k);
      assert fields[1..] == PositionalFields(roles)[n + 1..];
      ParseDecimal(n);
    }
  }

  /** The answer `{"0": r0, "1": r1, ...}` as its list of fields. */
  function PositionalFields(roles: seq<string>): (r: seq<(string, Json)>)
    ensures |r| == |roles|
    ensures forall i :: 0 <= i < |roles| ==> r[i] == (DecimalString(i), JStr(roles[i]))
  {
    seq(|roles|, i requires 0 <= i < |roles| => (DecimalString(i), JStr(roles[i])))
  }

  /**
   * An answer that names a role for each position, `{"0": r0, "1": r1, ...}`,
   * tags turn `i` with `ri` and keeps its content.
   */
  lemma PositionalAnswer(conversation: seq<DialogueTurn>, answer: string, loads: Decoder, roles: seq<string>)
    requires |roles| == |conversation|
    requires loads(Unfence(answer)) == Some(JObj(PositionalFields(roles)))
    ensures var t := Tagged(conversation, RolesFromAnswer(Some(answer), loads));
            |t| == |conversation|
            && forall i :: 0 <= i < |t| ==> t[i].role == roles[i] && t[i].content == conversation[i].content
  {
    var fields := PositionalFields(roles);
    forall i | 0 <= i < |fields| ensures ParseInt(fields[i].0).Some? {
      ParseDecimal(i);
    }
    IntKeyedDefined(map[], fields);
    var m := IntKeyed(fields).value;
    assert RolesFromAnswer(Some(answer), loads) == m;
    forall i | 0 <= i < |conversation| ensures RoleAt(m, i) == roles[i] {
      PositionalLastRole(roles, 0, i);
      assert fields[0..] == fields;
      IntKeyedLastWins(map[], fields, i);
    }
  }
}
