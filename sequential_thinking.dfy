/**
 * The sequential-thinking engine: a record per thought, a decoder from the
 * JSON arguments of a thinking step, a one-line formatter, and a stateful
 * engine that keeps the history of thoughts and an index of branches.
 */
module Thinking {
  import opened Wrappers
  import opened MachineInts
  import opened Text
  import opened Json

  /** One step of a chain of thought. */
  datatype ThoughtData = ThoughtData(
    thought: string,
    thoughtNumber: u32,
    totalThoughts: u32,
    isRevision: Option<bool>,
    revisesThought: Option<u32>,
    branchFromThought: Option<u32>,
    branchId: Option<string>,
    needsMoreThoughts: Option<bool>,
    nextThoughtNeeded: bool)
  {
    /** Marks the thought as a revision of thought `n`; nothing else changes. */
    function WithRevision(n: u32): (r: ThoughtData)
      ensures r.isRevision == Some(true) && r.revisesThought == Some(n)
      ensures r.(isRevision := isRevision, revisesThought := revisesThought) == this
    {
      this.(isRevision := Some(true), revisesThought := Some(n))
    }

    /** Places the thought on branch `id`, forked from thought `from`; nothing else changes. */
    function WithBranch(from: u32, id: string): (r: ThoughtData)
      ensures r.branchFromThought == Some(from) && r.branchId == Some(id)
      ensures r.(branchFromThought := branchFromThought, branchId := branchId) == this
    {
      this.(branchFromThought := Some(from), branchId := Some(id))
    }
  }

  /** `ThoughtData::new`: the four given fields, every optional field absent. */
  function NewThought(thought: string, number: u32, total: u32, next: bool): (t: ThoughtData)
    ensures t.thought == thought && t.thoughtNumber == number && t.totalThoughts == total
    ensures t.nextThoughtNeeded == next
    ensures t.isRevision.None? && t.revisesThought.None? && t.branchFromThought.None?
    ensures t.branchId.None? && t.needsMoreThoughts.None?
  {
    ThoughtData(thought, number, total, None, None, None, None, None, next)
  }

  /** The thought belongs to a branch: both branch fields are present. */
  predicate IsBranched(t: ThoughtData) {
    t.branchFromThought.Some? && t.branchId.Some?
  }

  // ---- decoding the arguments of a thinking step ----

  const NotAnObject := "Input must be a JSON object"
  const BadThought := "Invalid thought: must be a string"
  const BadThoughtNumber := "Invalid thoughtNumber: must be a number"
  const BadTotalThoughts := "Invalid totalThoughts: must be a number"
  const BadNextThoughtNeeded := "Invalid nextThoughtNeeded: must be a boolean"

  /**
   * Rust's `validate_thought_data`. The required fields are checked in the
   * order thought, thoughtNumber, totalThoughts, nextThoughtNeeded; numbers
   * are `u64` values cut to `u32` by `as`.
   */
  function ValidateThoughtData(input: Json): (r: Result<ThoughtData, string>)
    ensures !input.JObj? ==> r == Failure(NotAnObject)
    ensures input.JObj? && AsStr(Field(input, "thought")).None? ==> r == Failure(BadThought)
    ensures input.JObj? && AsStr(Field(input, "thought")).Some? && AsU64(Field(input, "thoughtNumber")).None? ==>
      r == Failure(BadThoughtNumber)
    ensures (input.JObj? && AsStr(Field(input, "thought")).Some? && AsU64(Field(input, "thoughtNumber")).Some?
      && AsU64(Field(input, "totalThoughts")).None?) ==> r == Failure(BadTotalThoughts)
    ensures (input.JObj? && AsStr(Field(input, "thought")).Some? && AsU64(Field(input, "thoughtNumber")).Some?
      && AsU64(Field(input, "totalThoughts")).Some? && AsBool(Field(input, "nextThoughtNeeded")).None?) ==>
      r == Failure(BadNextThoughtNeeded)
    ensures r.Success? <==>
      && input.JObj?
      && AsStr(Field(input, "thought")).Some?
      && AsU64(Field(input, "thoughtNumber")).Some?
      && AsU64(Field(input, "totalThoughts")).Some?
      && AsBool(Field(input, "nextThoughtNeeded")).Some?
    ensures r.Failure? ==> r.error in {NotAnObject, BadThought, BadThoughtNumber, BadTotalThoughts, BadNextThoughtNeeded}
    ensures r.Success? ==>
      && r.value.thought == AsStr(Field(input, "thought")).value
      && r.value.thoughtNumber == TruncateToU32(AsU64(Field(input, "thoughtNumber")).value)
      && r.value.totalThoughts == TruncateToU32(AsU64(Field(input, "totalThoughts")).value)
      && r.value.nextThoughtNeeded == AsBool(Field(input, "nextThoughtNeeded")).value
    // Revision fields are never decoded; branch fields only as a pair.
    ensures r.Success? ==> r.value.isRevision.None? && r.value.revisesThought.None? && r.value.needsMoreThoughts.None?
    ensures r.Success? ==> r.value.branchFromThought.Some? == r.value.branchId.Some?
    ensures r.Success? ==> (IsBranched(r.value) <==>
      AsU64(Field(input, "branchFromThought")).Some? && AsStr(Field(input, "branchId")).Some?)
    ensures r.Success? && IsBranched(r.value) ==>
      && r.value.branchFromThought == Some(TruncateToU32(AsU64(Field(input, "branchFromThought")).value))
      && r.value.branchId == AsStr(Field(input, "branchId"))
  {
    if !input.JObj? then Failure(NotAnObject)
    else
      var thought := AsStr(Field(input, "thought"));
      if thought.None? then Failure(BadThought)
      else
        var number := AsU64(Field(input, "thoughtNumber"));
        if number.None? then Failure(BadThoughtNumber)
        else
          var total := AsU64(Field(input, "totalThoughts"));
          if total.None? then Failure(BadTotalThoughts)
          else
            var next := AsBool(Field(input, "nextThoughtNeeded"));
            if next.None? then Failure(BadNextThoughtNeeded)
            else
              var branchFrom := AsU64(Field(input, "branchFromThought"));
              var branchId := AsStr(Field(input, "branchId"));
              var t := NewThought(thought.value, TruncateToU32(number.value), TruncateToU32(total.value), next.value);
              if branchFrom.Some? && branchId.Some? then
                Success(t.WithBranch(TruncateToU32(branchFrom.value), branchId.value))
              else
                Success(t)
  }

  /** The thoughts the decoder can produce: no revision fields, branch fields as a pair. */
  predicate Decodable(t: ThoughtData) {
    && t.isRevision.None? && t.revisesThought.None? && t.needsMoreThoughts.None?
    && t.branchFromThought.Some? == t.branchId.Some?
  }

  /** The JSON arguments a client sends for a thought, in the documented camelCase keys. */
  function ThoughtInput(t: ThoughtData): Json {
    JObj([
      ("thought", JStr(t.thought)),
      ("thoughtNumber", JInt(t.thoughtNumber)),
      ("totalThoughts", JInt(t.totalThoughts)),
      ("nextThoughtNeeded", JBool(t.nextThoughtNeeded))]
      + if IsBranched(t) then [("branchFromThought", JInt(t.branchFromThought.value)), ("branchId", JStr(t.branchId.value))]
        else [])
  }

  /** The fields every object of `ThoughtInput` holds, in order. */
  lemma InputFields(t: ThoughtData)
    ensures var f := ThoughtInput(t).fields;
      && Get(f, "thought") == Some(JStr(t.thought))
      && Get(f, "thoughtNumber") == Some(JInt(t.thoughtNumber))
      && Get(f, "totalThoughts") == Some(JInt(t.totalThoughts))
      && Get(f, "nextThoughtNeeded") == Some(JBool(t.nextThoughtNeeded))
  {
    var f := ThoughtInput(t).fields;
    assert DistinctKeys(f[..4]) by {
      assert |f[0].0| == 7 && |f[1].0| == 13 && |f[2].0| == 13 && |f[3].0| == 17;
      assert f[1].0[1] == 'h' && f[2].0[1] == 'o';
    }
    GetDistinct(f[..4], 0);
    GetDistinct(f[..4], 1);
    GetDistinct(f[..4], 2);
    GetDistinct(f[..4], 3);
    GetPrefix(f, 4, "thought");
    GetPrefix(f, 4, "thoughtNumber");
    GetPrefix(f, 4, "totalThoughts");
    GetPrefix(f, 4, "nextThoughtNeeded");
  }

  /** The branch fields, present exactly for a branched thought. */
  lemma InputBranchFields(t: ThoughtData)
    ensures var f := ThoughtInput(t).fields;
      && Get(f, "branchFromThought") == (if IsBranched(t) then Some(JInt(t.branchFromThought.value)) else None)
      && Get(f, "branchId") == (if IsBranched(t) then Some(JStr(t.branchId.value)) else None)
  {
    var f := ThoughtInput(t).fields;
    var bf, bi := "branchFromThought", "branchId";
    assert |bf| == 17 && |bi| == 8 && bf[0] == 'b' && bi[0] == 'b';
    assert |f[0].0| == 7 && |f[1].0| == 13 && |f[2].0| == 13 && f[3].0[0] == 'n';
    if IsBranched(t) {
      GetAt(f, 4, bf);
      GetAt(f, 5, bi);
    } else {
      GetAbsent(f, bf);
      GetAbsent(f, bi);
    }
  }

  /** Every decodable thought is recovered from the arguments that describe it. */
  lemma InputRoundTrip(t: ThoughtData)
    requires Decodable(t)
    ensures ValidateThoughtData(ThoughtInput(t)) == Success(t)
  {
    InputFields(t);
    InputBranchFields(t);
  }

  // ---- correction and formatting ----

  /** The thought with `totalThoughts` raised to `thoughtNumber` when it was lower. */
  function Corrected(t: ThoughtData): (r: ThoughtData)
    ensures r.totalThoughts == if t.thoughtNumber > t.totalThoughts then t.thoughtNumber else t.totalThoughts
    ensures r.thoughtNumber <= r.totalThoughts
    ensures t.totalThoughts <= r.totalThoughts
    ensures r.(totalThoughts := t.totalThoughts) == t
  {
    if t.thoughtNumber > t.totalThoughts then t.(totalThoughts := t.thoughtNumber) else t
  }

  const RevisionMarker := "\U{1F504} Revision"
  const BranchMarker := "\U{1F33F} Branch"
  const ThoughtMarker := "\U{1F4AD} Thought"

  /** The marker of a thought: revision before branch before plain thought. */
  function Marker(t: ThoughtData): (m: string)
    ensures m in {RevisionMarker, BranchMarker, ThoughtMarker}
    ensures m == RevisionMarker <==> t.isRevision == Some(true)
    ensures m == BranchMarker <==> t.isRevision != Some(true) && t.branchFromThought.Some?
  {
    if t.isRevision.GetOr(false) then RevisionMarker
    else if t.branchFromThought.Some? then BranchMarker
    else ThoughtMarker
  }

  /** The characters `{:?}` writes with a backslash. */
  predicate NeedsEscape(c: char) {
    c == '"' || c == '\\' || c == '\n' || c == '\r' || c == '\t' || c == '\0'
  }

  /** A character as it appears inside Rust's `{:?}` rendering of a string. */
  function EscapeDebugChar(c: char): (e: string)
    ensures NeedsEscape(c) ==> |e| == 2 && e[0] == '\\' && UnescapeChar(e[1]) == c
    ensures !NeedsEscape(c) ==> e == [c]
  {
    match c
    case '"' => "\\\""
    case '\\' => "\\\\"
    case '\n' => "\\n"
    case '\r' => "\\r"
    case '\t' => "\\t"
    case '\0' => "\\0"
    case _ => [c]
  }

  /** The inside of the `{:?}` rendering: each character escaped in turn. */
  function Escaped(s: string): (r: string)
    ensures |s| <= |r| <= 2 * |s|
    ensures (forall i | 0 <= i < |s| :: !NeedsEscape(s[i])) ==> r == s
  {
    if s == [] then []
    else
      var r := EscapeDebugChar(s[0]) + Escaped(s[1..]);
      assert s == [s[0]] + s[1..];
      r
  }

  /** The character an escape letter stands for. */
  function UnescapeChar(c: char): char {
    match c
    case 'n' => '\n'
    case 'r' => '\r'
    case 't' => '\t'
    case '0' => '\0'
    case _ => c
  }

  /** Reads an escaped text back: a backslash and the next character become one character. */
  function Unescape(e: string): string
    decreases |e|
  {
    if e == [] then []
    else if e[0] == '\\' && |e| >= 2 then [UnescapeChar(e[1])] + Unescape(e[2..])
    else [e[0]] + Unescape(e[1..])
  }

  /** Escaping loses nothing: unescaping gives the string back. */
  lemma {:induction false} UnescapeEscaped(s: string)
    ensures Unescape(Escaped(s)) == s
  {
    if s != [] {
      UnescapeEscaped(s[1..]);
      var e := EscapeDebugChar(s[0]);
      var rest := Escaped(s[1..]);
      if NeedsEscape(s[0]) {
        assert (e + rest)[2..] == rest;
      } else {
        assert (e + rest)[1..] == rest;
      }
      assert s == [s[0]] + s[1..];
    }
  }

  /** Rust's `{:?}` rendering of a string: quoted, with escapes. */
  function DebugString(s: string): (r: string)
    ensures |r| >= 2 && r[0] == '"' && r[|r| - 1] == '"'
    ensures Unescape(r[1..|r| - 1]) == s
    ensures (forall i | 0 <= i < |s| :: !NeedsEscape(s[i])) ==> r == "\"" + s + "\""
  {
    var r := "\"" + Escaped(s) + "\"";
    assert r[1..|r| - 1] == Escaped(s);
    UnescapeEscaped(s);
    r
  }

  /** Rust's `{:?}` rendering of an `Option<String>`. */
  function DebugOptString(o: Option<string>): string {
    match o
    case None => "None"
    case Some(s) => "Some(" + DebugString(s) + ")"
  }

  /** The context after the numbers: the revised thought, else the branch origin, else nothing. */
  function Context(t: ThoughtData): (c: string)
    ensures c == [] <==> t.revisesThought.None? && t.branchFromThought.None?
    ensures t.revisesThought.Some? ==> c == " (revising thought " + NatToString(t.revisesThought.value) + ")"
    ensures t.revisesThought.None? && t.branchFromThought.Some? ==>
      c == " (from thought " + NatToString(t.branchFromThought.value) + ", ID: " + DebugOptString(t.branchId) + ")"
  {
    if t.revisesThought.Some? then " (revising thought " + NatToString(t.revisesThought.value) + ")"
    else if t.branchFromThought.Some? then
      " (from thought " + NatToString(t.branchFromThought.value) + ", ID: " + DebugOptString(t.branchId) + ")"
    else []
  }

  /** Rust's `format_thought`: a header line, then the thought itself. */
  function FormatThought(t: ThoughtData): (r: string)
    ensures IsPrefix(Marker(t) + " " + NatToString(t.thoughtNumber) + "/" + NatToString(t.totalThoughts), r)
    ensures IsSuffix("\n" + t.thought, r)
    ensures var numbers := Marker(t) + " " + NatToString(t.thoughtNumber) + "/" + NatToString(t.totalThoughts);
      |r| == |numbers| + |Context(t)| + 1 + |t.thought| && r[|numbers|..|numbers| + |Context(t)|] == Context(t)
  {
    var numbers := Marker(t) + " " + NatToString(t.thoughtNumber) + "/" + NatToString(t.totalThoughts);
    var context := Context(t);
    var r := numbers + context + ("\n" + t.thought);
    assert r[..|numbers|] == numbers;
    assert r[|numbers|..|numbers| + |context|] == context;
    assert r[|r| - |t.thought| - 1..] == "\n" + t.thought;
    r
  }

  // ---- the branch index ----

  /** The thoughts of `h` on branch `id`, in order. */
  function BranchRecords(h: seq<ThoughtData>, id: string): (r: seq<ThoughtData>)
    ensures |r| <= |h|
    ensures forall j | 0 <= j < |r| :: IsBranched(r[j]) && r[j].branchId == Some(id) && r[j] in h
  {
    if h == [] then []
    else
      var last := h[|h| - 1];
      var r := BranchRecords(h[..|h| - 1], id);
      if IsBranched(last) && last.branchId == Some(id) then r + [last] else r
  }

  /** The ids of the branches that thoughts of `h` belong to. */
  ghost function BranchIds(h: seq<ThoughtData>): set<string> {
    set i | 0 <= i < |h| && IsBranched(h[i]) :: h[i].branchId.value
  }

  /** The branch map that the history `h` determines. */
  ghost function BranchIndex(h: seq<ThoughtData>): map<string, seq<ThoughtData>> {
    map id | id in BranchIds(h) :: BranchRecords(h, id)
  }

  /** A branch with no thought in `h` has no records, and a branch with one has some. */
  lemma {:induction false} BranchRecordsEmptyIff(h: seq<ThoughtData>, id: string)
    ensures BranchRecords(h, id) == [] <==> id !in BranchIds(h)
  {
    if h != [] {
      var init := h[..|h| - 1];
      BranchRecordsEmptyIff(init, id);
      assert h == init + [h[|h| - 1]];
      if id in BranchIds(init) {
        var i :| 0 <= i < |init| && IsBranched(init[i]) && init[i].branchId.value == id;
        assert h[i] == init[i];
      }
      if id in BranchIds(h) {
        var i :| 0 <= i < |h| && IsBranched(h[i]) && h[i].branchId.value == id;
        if i < |init| {
          assert init[i] == h[i];
        }
      }
    }
  }

  /** Appending a thought extends the records of its own branch only. */
  lemma BranchRecordsAppend(h: seq<ThoughtData>, t: ThoughtData, id: string)
    ensures BranchRecords(h + [t], id) ==
      if IsBranched(t) && t.branchId == Some(id) then BranchRecords(h, id) + [t] else BranchRecords(h, id)
  {
    assert (h + [t])[..|h|] == h;
  }

  /** Appending a thought adds its branch id, if any, to the branch ids. */
  lemma BranchIdsAppend(h: seq<ThoughtData>, t: ThoughtData)
    ensures BranchIds(h + [t]) == BranchIds(h) + if IsBranched(t) then {t.branchId.value} else {}
  {
    var h' := h + [t];
    forall x | x in BranchIds(h')
      ensures x in BranchIds(h) + if IsBranched(t) then {t.branchId.value} else {}
    {
      var i :| 0 <= i < |h'| && IsBranched(h'[i]) && h'[i].branchId.value == x;
      if i < |h| {
        assert h[i] == h'[i];
      }
    }
    forall x | x in BranchIds(h)
      ensures x in BranchIds(h')
    {
      var i :| 0 <= i < |h| && IsBranched(h[i]) && h[i].branchId.value == x;
      assert h'[i] == h[i];
    }
    if IsBranched(t) {
      assert h'[|h|] == t;
    }
  }

  /** Appending a thought adds it to its own branch (created when new) and changes no other branch. */
  lemma BranchIndexAppend(h: seq<ThoughtData>, t: ThoughtData)
    ensures IsBranched(t) ==>
      var m := BranchIndex(h);
      var id := t.branchId.value;
      BranchIndex(h + [t]) == m[id := (if id in m then m[id] else []) + [t]]
    ensures !IsBranched(t) ==> BranchIndex(h + [t]) == BranchIndex(h)
  {
    BranchIdsAppend(h, t);
    forall id {
      BranchRecordsAppend(h, t, id);
    }
    if IsBranched(t) {
      BranchRecordsEmptyIff(h, t.branchId.value);
    }
  }

  // ---- the engine ----

  /** What one processed step reports back. */
  datatype ThinkingSummary = ThinkingSummary(
    thoughtNumber: u32,
    totalThoughts: u32,
    nextThoughtNeeded: bool,
    branches: set<string>,
    thoughtHistoryLength: nat)

  /** The engine: every accepted thought in order, and the thoughts of each branch. */
  class SequentialThinking {
    var thoughtHistory: seq<ThoughtData>
    var branches: map<string, seq<ThoughtData>>

    /** The branch map is the index of the history, and every stored thought is corrected. */
    ghost predicate Valid()
      reads this
    {
      && branches == BranchIndex(thoughtHistory)
      && forall i | 0 <= i < |thoughtHistory| :: thoughtHistory[i].thoughtNumber <= thoughtHistory[i].totalThoughts
    }

    /** `SequentialThinking::new`: no thoughts and no branches. */
    constructor()
      ensures Valid()
      ensures thoughtHistory == [] && branches == map[]
    {
      thoughtHistory := [];
      branches := map[];
    }

    /**
     * Rust's `process_thought`. Bad input is rejected with the decoder's
     * message and changes nothing; otherwise the corrected thought is
     * appended to the history and, when it belongs to a branch, to that
     * branch's list (which is created when new), and a summary is returned.
     */
    method ProcessThought(input: Json) returns (r: Result<ThinkingSummary, string>)
      requires Valid()
      modifies this
      ensures Valid()
      ensures ValidateThoughtData(input).Failure? ==>
        && r == Failure(ValidateThoughtData(input).error)
        && thoughtHistory == old(thoughtHistory) && branches == old(branches)
      ensures ValidateThoughtData(input).Success? ==>
        var t := Corrected(ValidateThoughtData(input).value);
        var id := t.branchId.GetOr([]);
        && thoughtHistory == old(thoughtHistory) + [t]
        && (IsBranched(t) ==>
              branches == old(branches)[id := (if id in old(branches) then old(branches)[id] else []) + [t]])
        && (!IsBranched(t) ==> branches == old(branches))
        && r == Success(ThinkingSummary(t.thoughtNumber, t.totalThoughts, t.nextThoughtNeeded,
                                        branches.Keys, |thoughtHistory|))
    {
      var decoded := ValidateThoughtData(input);
      if decoded.Failure? {
        return Failure(decoded.error);
      }
      var t := decoded.value;
      if t.thoughtNumber > t.totalThoughts {
        t := t.(totalThoughts := t.thoughtNumber);
      }
      BranchIndexAppend(thoughtHistory, t);
      thoughtHistory := thoughtHistory + [t];
      if t.branchFromThought.Some? && t.branchId.Some? {
        var id := t.branchId.value;
        var list := if id in branches then branches[id] else [];
        branches := branches[id := list + [t]];
      }
      r := Success(ThinkingSummary(t.thoughtNumber, t.totalThoughts, t.nextThoughtNeeded,
                                   branches.Keys, |thoughtHistory|));
    }

    /** Rust's `get_thought_history`: every stored thought has `thoughtNumber <= totalThoughts`. */
    function GetThoughtHistory(): (h: seq<ThoughtData>)
      requires Valid()
      reads this
      ensures forall i | 0 <= i < |h| :: h[i].thoughtNumber <= h[i].totalThoughts
      ensures |h| == |thoughtHistory|
    {
      thoughtHistory
    }

    /**
     * Rust's `get_branches`: each branch is a non-empty list of thoughts
     * from the history, all carrying that branch's id.
     */
    function GetBranches(): (b: map<string, seq<ThoughtData>>)
      requires Valid()
      reads this
      ensures forall id | id in b :: b[id] != []
      ensures forall id | id in b :: forall j | 0 <= j < |b[id]| ::
        b[id][j].branchId == Some(id) && b[id][j].branchFromThought.Some? && b[id][j] in thoughtHistory
    {
      forall id | id in branches
        ensures branches[id] != []
      {
        BranchRecordsEmptyIff(thoughtHistory, id);
      }
      branches
    }
  }
}
