/**
 * Nested filters as a MongoDB match: a level is the conjunction of its conditions, `:or` some of its
 * conditions, `:not` none of them. packages/mongodb/src/MongoQuery.ts.
 *
 * What one operator says of one field of a document is left open: every result is about any such
 * `Tests`, and so about any document.
 */
module MongoFilters {
  import opened Wrappers
  import opened Documents

  datatype Operator = Eq | Ne | Lt | Lte | Gt | Gte | In | Nin | Regex

  /** `field:op = value`, its value coerced and escaped; `None` is an operator that is not translated. */
  datatype Condition = Condition(field: string, op: Option<Operator>, value: Value)

  datatype Filters = Filters(conditions: seq<Condition>, all: Option<Filters>, any: Option<Filters>,
      none: Option<Filters>)

  /** The query object of a `$match` stage. */
  datatype Match =
    | Fields(fields: map<string, map<Operator, Value>>)
    | OrM(branches: seq<Match>)
    | NorM(branches: seq<Match>)
    | AndM(branches: seq<Match>)

  /** What each operator says of each field of the document at hand. */
  type Tests = (string, Operator, Value) -> bool

  const NOTHING := Fields(map[])

  predicate IsLike(c: Condition) { c.op == Some(Regex) }

  // --- What a match selects ---

  predicate Selects(m: Match, tests: Tests)
    decreases m
  {
    match m
    case Fields(fields) => forall field <- fields, op <- fields[field] :: tests(field, op, fields[field][op])
    case OrM(branches) => exists b <- branches :: Selects(b, tests)
    case NorM(branches) => forall b <- branches :: !Selects(b, tests)
    case AndM(branches) => forall b <- branches :: Selects(b, tests)
  }

  // --- What a filter means ---

  predicate ConditionHolds(c: Condition, tests: Tests)
    requires c.op.Some?
  {
    tests(c.field, c.op.value, c.value)
  }

  /** The conditions of a level that say something: its likes, or the others. */
  function Said(conditions: seq<Condition>, likes: bool): seq<Condition> {
    if conditions == [] then []
    else
      var said, last := Said(conditions[..|conditions| - 1], likes), conditions[|conditions| - 1];
      if last.op.Some? && IsLike(last) == likes then said + [last] else said
  }

  predicate AllHold(conditions: seq<Condition>, tests: Tests) {
    forall c <- conditions :: c.op.Some? ==> ConditionHolds(c, tests)
  }

  predicate SomeHolds(conditions: seq<Condition>, tests: Tests) {
    exists c <- conditions :: c.op.Some? && ConditionHolds(c, tests)
  }

  function And(a: Option<bool>, b: Option<bool>): Option<bool> {
    if a.None? then b else if b.None? then a else Some(a.value && b.value)
  }

  /** A filter as a whole: its fields all hold, one of its likes does, and its groups do. `None`: it says nothing. */
  function Meaning(f: Filters, tests: Tests): Option<bool>
    decreases f, 1
  {
    var plain, likes := Said(f.conditions, false), Said(f.conditions, true);
    var own := And(if plain == [] then None else Some(AllHold(plain, tests)), if likes == [] then None
        else Some(SomeHolds(likes, tests)));
    And(And(And(own, AllOf(f.all, tests)), SomeOf(f.any, tests)), NoneOf(f.none, tests))
  }

  function AllOf(f: Option<Filters>, tests: Tests): Option<bool>
    decreases f, 2
  {
    if f.Some? then Meaning(f.value, tests) else None
  }

  /** `:or`: some condition or group of it holds. */
  function SomeOf(f: Option<Filters>, tests: Tests): Option<bool>
    decreases f, 2
  {
    if f.None? || Branched(f.value, tests) == [] then None else Some(true in Branched(f.value, tests))
  }

  /** `:not`: none of its conditions or groups holds. */
  function NoneOf(f: Option<Filters>, tests: Tests): Option<bool>
    decreases f, 2
  {
    if f.None? || Branched(f.value, tests) == [] then None else Some(true !in Branched(f.value, tests))
  }

  function Each(conditions: seq<Condition>, tests: Tests): seq<bool> {
    if conditions == [] then []
    else
      var each, last := Each(conditions[..|conditions| - 1], tests), conditions[|conditions| - 1];
      if last.op.Some? then each + [ConditionHolds(last, tests)] else each
  }

  function ToSeq(b: Option<bool>): seq<bool> { if b.Some? then [b.value] else [] }

  /** The conditions and groups of a level, one by one. */
  function Branched(f: Filters, tests: Tests): seq<bool>
    decreases f, 1
  {
    Each(f.conditions, tests) + ToSeq(AllOf(f.all, tests)) + ToSeq(SomeOf(f.any, tests)) + ToSeq(NoneOf(f.none, tests))
  }

  // --- Compiling ---

  /** The conditions of a level merged by field: of two with one operator the later stays. */
  function Merged(conditions: seq<Condition>): map<string, map<Operator, Value>> {
    if conditions == [] then map[]
    else
      var merged, last := Merged(conditions[..|conditions| - 1]), conditions[|conditions| - 1];
      if last.op.None? || IsLike(last) then merged
      else merged[last.field := (if last.field in merged then merged[last.field]
          else map[])[last.op.value := last.value]]
  }

  function Single(c: Condition): Match
    requires c.op.Some?
  {
    Fields(map[c.field := map[c.op.value := c.value]])
  }

  function Singles(conditions: seq<Condition>): seq<Match>
    requires forall c <- conditions :: c.op.Some?
  {
    seq(|conditions|, i requires 0 <= i < |conditions| => Single(conditions[i]))
  }

  function AllSaid(conditions: seq<Condition>): (said: seq<Condition>)
    ensures forall c <- said :: c.op.Some?
  {
    if conditions == [] then []
    else
      var said, last := AllSaid(conditions[..|conditions| - 1]), conditions[|conditions| - 1];
      if last.op.Some? then said + [last] else said
  }

  function Alone(m: Match): seq<Match> {
    if m == NOTHING then [] else [m]
  }

  /** No clause, the one clause, or their `$and`. */
  function Conjoined(clauses: seq<Match>): Match {
    if clauses == [] then NOTHING else if |clauses| == 1 then clauses[0] else AndM(clauses)
  }

  function OrOf(branches: seq<Match>): seq<Match> {
    if branches == [] then [] else [OrM(branches)]
  }

  function NorOf(branches: seq<Match>): seq<Match> {
    if branches == [] then [] else [NorM(branches)]
  }

  /** `#build_match` */
  function Compiled(f: Filters): Match
    decreases f, 1
  {
    var likes := Said(f.conditions, true);
    SaidSay(f.conditions, true);
    Conjoined(Alone(Fields(Merged(f.conditions))) + OrOf(Singles(likes)) + CompiledAll(f.all)
              + OrOf(BranchesOf(f.any)) + NorOf(BranchesOf(f.none)))
  }

  function CompiledAll(f: Option<Filters>): seq<Match>
    decreases f, 2
  {
    if f.Some? then Alone(Compiled(f.value)) else []
  }

  function BranchesOf(f: Option<Filters>): seq<Match>
    decreases f, 2
  {
    if f.Some? then Branches(f.value) else []
  }

  /** `#branches` */
  function Branches(f: Filters): seq<Match>
    decreases f, 1
  {
    Singles(AllSaid(f.conditions)) + CompiledAll(f.all) + OrOf(BranchesOf(f.any)) + NorOf(BranchesOf(f.none))
  }

  lemma {:induction false} SaidSay(conditions: seq<Condition>, likes: bool)
    ensures forall c :: c in Said(conditions, likes) <==> c in conditions && c.op.Some? && IsLike(c) == likes
    decreases |conditions|
  {
    if conditions != [] {
      var init, last := conditions[..|conditions| - 1], conditions[|conditions| - 1];
      assert conditions == init + [last];
      SaidSay(init, likes);
    }
  }

  lemma OneMore(conditions: seq<Condition>, i: nat)
    requires i < |conditions|
    ensures conditions[..i + 1][..i] == conditions[..i] && conditions[..i + 1][i] == conditions[i]
  {
  }

  /** One pass over the conditions of a level: its likes apart, the rest merged by field. */
  method ReduceFields(conditions: seq<Condition>) returns (fields: map<string, map<Operator, Value>>, likes: seq<Match>)
    ensures fields == Merged(conditions)
    ensures (forall c <- Said(conditions, true) :: c.op.Some?) && likes == Singles(Said(conditions, true))
  {
    SaidSay(conditions, true);
    fields, likes := map[], [];
    var i := 0;
    while i < |conditions|
      invariant 0 <= i <= |conditions| && fields == Merged(conditions[..i])
      invariant (forall c <- Said(conditions[..i], true) :: c.op.Some?) && likes == Singles(Said(conditions[..i], true))
    {
      OneMore(conditions, i);
      var c := conditions[i];
      if c.op.Some? {
        if IsLike(c) {
          likes := likes + [Single(c)];
        } else {
          var clause := if c.field in fields then fields[c.field] else map[];
          fields := fields[c.field := clause[c.op.value := c.value]];
        }
      }
      i := i + 1;
    }
    WholeLevel(conditions);
  }

  lemma WholeLevel(conditions: seq<Condition>)
    ensures conditions[..|conditions|] == conditions
  {
  }

  /** What the groups of a filter compile to; a missing group compiles to nothing. */
  method BuildGroups(f: Filters) returns (all: seq<Match>, any: seq<Match>, none: seq<Match>)
    ensures all == CompiledAll(f.all) && any == BranchesOf(f.any) && none == BranchesOf(f.none)
    decreases f, 0
  {
    hide Compiled, Branches, Alone;
    all, any, none := [], [], [];
    if f.all.Some? {
      var m := BuildMatch(f.all.value);
      all := Alone(m);
    }
    if f.any.Some? {
      any := BuildBranches(f.any.value);
    }
    if f.none.Some? {
      none := BuildBranches(f.none.value);
    }
  }

  /** `#build_match`: the clauses of a filter, one after the other. */
  method BuildMatch(f: Filters) returns (m: Match)
    ensures m == Compiled(f)
    decreases f, 1
  {
    var fields, likes := ReduceFields(f.conditions);
    var all, any, none := BuildGroups(f);
    hide Merged, Said, Singles, Alone, OrOf, NorOf, CompiledAll, BranchesOf, Conjoined;
    m := Conjoined(Alone(Fields(fields)) + OrOf(likes) + all + OrOf(any) + NorOf(none));
  }

  /** `#branches`: one match for each condition and group of a level. */
  method BuildBranches(f: Filters) returns (branches: seq<Match>)
    ensures branches == Branches(f)
    decreases f, 1
  {
    var singles := EachCondition(f.conditions);
    var all, any, none := BuildGroups(f);
    hide AllSaid, Singles, OrOf, NorOf, CompiledAll, BranchesOf;
    branches := singles + all + OrOf(any) + NorOf(none);
  }

  method EachCondition(conditions: seq<Condition>) returns (branches: seq<Match>)
    ensures branches == Singles(AllSaid(conditions))
  {
    branches := [];
    var i := 0;
    while i < |conditions|
      invariant 0 <= i <= |conditions| && branches == Singles(AllSaid(conditions[..i]))
    {
      OneMore(conditions, i);
      if conditions[i].op.Some? {
        branches := branches + [Single(conditions[i])];
      }
      i := i + 1;
    }
    WholeLevel(conditions);
  }

  // --- Merging ---

  /** No two conditions of a level put different values under one operator of one field. */
  predicate Compatible(conditions: seq<Condition>) {
    forall c <- conditions, d <- conditions ::
      c.op.Some? && !IsLike(c) && c.op == d.op && c.field == d.field ==> c.value == d.value
  }

  /** Whatever was merged some condition put there. */
  ghost predicate FromConditions(fields: map<string, map<Operator, Value>>, conditions: seq<Condition>) {
    forall field <- fields, op <- fields[field] :: op != Regex
        && Condition(field, Some(op), fields[field][op]) in conditions
  }

  /** Merging keeps an operator for every condition, with a value some condition put there. */
  lemma {:induction false} MergedIs(conditions: seq<Condition>)
    ensures forall c <- conditions :: c.op.Some? && !IsLike(c) ==>
              c.field in Merged(conditions) && c.op.value in Merged(conditions)[c.field]
    ensures FromConditions(Merged(conditions), conditions)
    decreases |conditions|
  {
    if conditions != [] {
      var init, last := conditions[..|conditions| - 1], conditions[|conditions| - 1];
      assert conditions == init + [last];
      MergedIs(init);
      var before, after := Merged(init), Merged(conditions);
      forall field, op | field in after && op in after[field]
        ensures op != Regex && Condition(field, Some(op), after[field][op]) in conditions
      {
        if field in before && op in before[field] && after[field][op] == before[field][op] {
          assert Condition(field, Some(op), before[field][op]) in init;
        } else {
          assert last.op == Some(op) && last.field == field && after[field][op] == last.value;
          assert Condition(field, Some(op), after[field][op]) == last;
        }
      }
    }
  }

  lemma {:induction false} MergedSays(conditions: seq<Condition>)
    ensures Fields(Merged(conditions)) == NOTHING <==> Said(conditions, false) == []
    decreases |conditions|
  {
    if conditions != [] {
      var init, last := conditions[..|conditions| - 1], conditions[|conditions| - 1];
      MergedSays(init);
      if last.op.Some? && !IsLike(last) {
        assert last.field in Merged(conditions);
      }
    }
  }

  /** Merged compatible conditions hold exactly when they all do. */
  lemma MergedHolds(conditions: seq<Condition>, tests: Tests)
    requires Compatible(conditions)
    ensures Selects(Fields(Merged(conditions)), tests) <==> AllHold(Said(conditions, false), tests)
  {
    var fields := Merged(conditions);
    MergedIs(conditions);
    SaidSay(conditions, false);
    hide Merged, Said;
    if Selects(Fields(fields), tests) {
      forall c | c in Said(conditions, false)
        ensures ConditionHolds(c, tests)
      {
        var kept := Condition(c.field, c.op, fields[c.field][c.op.value]);
        assert kept in conditions && c in conditions;
      }
    }
    if AllHold(Said(conditions, false), tests) {
      forall field, op | field in fields && op in fields[field]
        ensures tests(field, op, fields[field][op])
      {
        assert Condition(field, Some(op), fields[field][op]) in Said(conditions, false);
      }
    }
  }

  /** And only compatible ones: otherwise some tests fit the match and not the filter. */
  lemma MergedNeedsCompatible(conditions: seq<Condition>) returns (tests: Tests)
    requires !Compatible(conditions)
    ensures Selects(Fields(Merged(conditions)), tests) && !AllHold(Said(conditions, false), tests)
  {
    var fields := Merged(conditions);
    MergedIs(conditions);
    SaidSay(conditions, false);
    var c, d :| c in conditions && d in conditions && c.op.Some? && !IsLike(c) && c.op == d.op && c.field == d.field
        && c.value != d.value;
    var lost := if fields[c.field][c.op.value] == c.value then d else c;
    tests := (field, op, value) => !(field == lost.field && op == lost.op.value && value == lost.value);
    assert lost in Said(conditions, false);
  }

  lemma OverwritesEq(conditions: seq<Condition>, first: Condition, second: Condition)
    requires first.op == second.op == Some(Eq) && first.field == second.field
    ensures Merged(conditions + [first, second]) == Merged(conditions + [second])
  {
    var level, field, merged := conditions + [first, second], first.field, Merged(conditions);
    var clause: map<Operator, Value> := if field in merged then merged[field] else map[];
    assert level[..|level| - 1] == conditions + [first] && (conditions + [first])[..|conditions|] == conditions;
    assert (conditions + [second])[..|conditions|] == conditions;
    assert Merged(conditions + [first]) == merged[field := clause[Eq := first.value]];
    assert Merged(level) == Merged(conditions + [first])[field := clause[Eq := first.value][Eq := second.value]];
    assert clause[Eq := first.value][Eq := second.value] == clause[Eq := second.value];
  }

  /** Of two equalities on one field that do not fit together the match keeps the later one. */
  lemma EqualitiesOverwrite(conditions: seq<Condition>, field: string, v: Value, w: Value, tests: Tests)
    requires v != w && Compatible(conditions)
    requires forall c <- conditions :: !(c.field == field && c.op == Some(Eq))
    requires !(tests(field, Eq, v) && tests(field, Eq, w))
    ensures var level := conditions + [Condition(field, Some(Eq), v), Condition(field, Some(Eq), w)];
            && !AllHold(Said(level, false), tests)
            && (Selects(Fields(Merged(level)), tests) <==>
                AllHold(Said(conditions, false), tests) && tests(field, Eq, w))
  {
    var first, second := Condition(field, Some(Eq), v), Condition(field, Some(Eq), w);
    var level := conditions + [first, second];
    var kept := conditions + [second];
    assert level[..|level| - 1] == conditions + [first] && (conditions + [first])[..|conditions|] == conditions;
    assert kept[..|conditions|] == conditions;
    SaidSay(level, false);
    SaidSay(kept, false);
    SaidSay(conditions, false);
    assert first in Said(level, false) && second in Said(level, false) && second in Said(kept, false);
    OverwritesEq(conditions, first, second);
    MergedHolds(kept, tests);
    hide Merged, Said;
    assert AllHold(Said(kept, false), tests) <==>
        AllHold(Said(conditions, false), tests) && ConditionHolds(second, tests);
    assert ConditionHolds(first, tests) <==> tests(field, Eq, v);
  }

  /** The tests of a document: a field equals the value it holds, a missing one null. */
  ghost predicate TestsOf(doc: map<string, Value>, tests: Tests) {
    forall field, v :: tests(field, Eq, v) <==> FieldOf(doc, field).GetOr(Null) == v
  }

  /**
   * On documents whose fields hold no arrays: of two equalities on one field with different values no document fits
   * both, and yet the match selects those that fit the later one and the rest of the level.
   */
  lemma EqualitiesCollide(conditions: seq<Condition>, field: string, v: Value, w: Value, doc: map<string, Value>,
      tests: Tests)
    requires v != w && Compatible(conditions) && TestsOf(doc, tests)
    requires forall c <- conditions :: !(c.field == field && c.op == Some(Eq))
    ensures var level := conditions + [Condition(field, Some(Eq), v), Condition(field, Some(Eq), w)];
            && !AllHold(Said(level, false), tests)
            && (Selects(Fields(Merged(level)), tests) <==>
                AllHold(Said(conditions, false), tests) && FieldOf(doc, field).GetOr(Null) == w)
  {
    EqualitiesOverwrite(conditions, field, v, w, tests);
    hide Merged, Said, Selects, AllHold;
  }

  // --- The match means the filter ---

  /** Every level that is merged as a whole, here and in the groups, is compatible. */
  predicate Clean(f: Filters)
    decreases f, 1
  {
    && Compatible(f.conditions)
    && (f.all.Some? ==> Clean(f.all.value))
    && (f.any.Some? ==> CleanInside(f.any.value))
    && (f.none.Some? ==> CleanInside(f.none.value))
  }

  predicate CleanInside(f: Filters)
    decreases f, 1
  {
    && (f.all.Some? ==> Clean(f.all.value))
    && (f.any.Some? ==> CleanInside(f.any.value))
    && (f.none.Some? ==> CleanInside(f.none.value))
  }

  function Truths(ms: seq<Match>, tests: Tests): (bs: seq<bool>)
    ensures |bs| == |ms|
  {
    seq(|ms|, i requires 0 <= i < |ms| => Selects(ms[i], tests))
  }

  lemma TruthsConcat(a: seq<Match>, b: seq<Match>, tests: Tests)
    ensures Truths(a + b, tests) == Truths(a, tests) + Truths(b, tests)
  {
  }

  lemma SomeTruth(ms: seq<Match>, tests: Tests)
    ensures Selects(OrM(ms), tests) <==> true in Truths(ms, tests)
    ensures Selects(NorM(ms), tests) <==> true !in Truths(ms, tests)
    ensures Selects(AndM(ms), tests) <==> false !in Truths(ms, tests)
  {
    var truths := Truths(ms, tests);
    assert forall i :: 0 <= i < |ms| ==> truths[i] == Selects(ms[i], tests);
    assert forall m <- ms :: Selects(m, tests) in truths by {
      forall m | m in ms
        ensures Selects(m, tests) in truths
      {
        var i :| 0 <= i < |ms| && ms[i] == m;
        assert truths[i] == Selects(m, tests);
      }
    }
  }

  lemma SinglesHold(conditions: seq<Condition>, tests: Tests)
    requires forall c <- conditions :: c.op.Some?
    ensures Truths(Singles(conditions), tests) == seq(|conditions|,
        i requires 0 <= i < |conditions| => ConditionHolds(conditions[i], tests))
  {
    forall i | 0 <= i < |conditions|
      ensures Selects(Singles(conditions)[i], tests) == ConditionHolds(conditions[i], tests)
    {
      SingleHolds(conditions[i], tests);
    }
  }

  lemma SingleHolds(c: Condition, tests: Tests)
    requires c.op.Some?
    ensures Selects(Single(c), tests) == ConditionHolds(c, tests)
  {
    var fields := map[c.field := map[c.op.value := c.value]];
    assert c.field in fields && c.op.value in fields[c.field];
  }

  lemma {:induction false} EachIs(conditions: seq<Condition>, tests: Tests)
    ensures Truths(Singles(AllSaid(conditions)), tests) == Each(conditions, tests)
    decreases |conditions|
  {
    if conditions != [] {
      EachIs(conditions[..|conditions| - 1], tests);
    }
    SinglesHold(AllSaid(conditions), tests);
    if conditions != [] {
      SinglesHold(AllSaid(conditions[..|conditions| - 1]), tests);
    }
  }

  lemma SomeSaid(conditions: seq<Condition>, tests: Tests)
    ensures true in Truths(Singles(Said(conditions, true)), tests) <==> SomeHolds(Said(conditions, true), tests)
    requires forall c <- Said(conditions, true) :: c.op.Some?
  {
    var likes := Said(conditions, true);
    SinglesHold(likes, tests);
    var truths := Truths(Singles(likes), tests);
    assert forall i :: 0 <= i < |likes| ==> truths[i] == ConditionHolds(likes[i], tests);
    if SomeHolds(likes, tests) {
      var c :| c in likes && ConditionHolds(c, tests);
      var i :| 0 <= i < |likes| && likes[i] == c;
      assert truths[i];
    }
  }

  /** The clauses of a match, and what they say together. */
  lemma ConjoinedHolds(clauses: seq<Match>, tests: Tests)
    requires forall m <- clauses :: m != NOTHING
    ensures Conjoined(clauses) == NOTHING <==> clauses == []
    ensures Selects(Conjoined(clauses), tests) <==> false !in Truths(clauses, tests)
  {
    SomeTruth(clauses, tests);
    if |clauses| == 1 {
      assert Truths(clauses, tests) == [Selects(clauses[0], tests)];
    }
  }

  /** A clause says `b` when there is one, and `b` is `None` when there is none. */
  ghost predicate Says(clauses: seq<Match>, b: Option<bool>, tests: Tests) {
    Truths(clauses, tests) == ToSeq(b) && forall m <- clauses :: m != NOTHING
  }

  lemma SaysOne(m: Match, tests: Tests)
    ensures Truths([m], tests) == [Selects(m, tests)]
  {
  }

  lemma OrSays(branches: seq<Match>, bs: seq<bool>, tests: Tests)
    requires Truths(branches, tests) == bs
    ensures Says(OrOf(branches), if bs == [] then None else Some(true in bs), tests)
    ensures Says(NorOf(branches), if bs == [] then None else Some(true !in bs), tests)
  {
    SomeTruth(branches, tests);
    if branches != [] {
      SaysOne(OrM(branches), tests);
      SaysOne(NorM(branches), tests);
    }
  }

  lemma {:induction false} AllSays(f: Option<Filters>, tests: Tests)
    requires f.Some? ==> Clean(f.value)
    ensures Says(CompiledAll(f), AllOf(f, tests), tests)
    decreases f, 2
  {
    if f.Some? {
      CompiledMeans(f.value, tests);
      SaysOne(Compiled(f.value), tests);
    }
    hide Compiled, Meaning;
  }

  lemma {:induction false} BranchesSay(f: Option<Filters>, tests: Tests)
    requires f.Some? ==> CleanInside(f.value)
    ensures Says(OrOf(BranchesOf(f)), SomeOf(f, tests), tests)
    ensures Says(NorOf(BranchesOf(f)), NoneOf(f, tests), tests)
    decreases f, 2
  {
    if f.Some? {
      BranchesMean(f.value, tests);
      OrSays(Branches(f.value), Branched(f.value, tests), tests);
    }
    hide Branches, Branched, Says;
  }

  /** `#branches` says one thing for each condition and group of its level. */
  lemma {:induction false} BranchesMean(f: Filters, tests: Tests)
    requires CleanInside(f)
    ensures Truths(Branches(f), tests) == Branched(f, tests)
    decreases f, 1
  {
    EachIs(f.conditions, tests);
    AllSays(f.all, tests);
    BranchesSay(f.any, tests);
    BranchesSay(f.none, tests);
    var each, all, some, none := Singles(AllSaid(f.conditions)), CompiledAll(f.all), OrOf(BranchesOf(f.any)),
        NorOf(BranchesOf(f.none));
    TruthsConcat(each, all, tests);
    TruthsConcat(each + all, some, tests);
    TruthsConcat(each + all + some, none, tests);
    hide Truths, Singles, AllSaid, CompiledAll, OrOf, NorOf, BranchesOf, Each, AllOf, SomeOf, NoneOf, ToSeq;
  }

  lemma OwnSays(conditions: seq<Condition>, tests: Tests)
    requires Compatible(conditions) && forall c <- Said(conditions, true) :: c.op.Some?
    ensures Says(Alone(Fields(Merged(conditions))), if Said(conditions, false) == [] then None
        else Some(AllHold(Said(conditions, false), tests)), tests)
    ensures Says(OrOf(Singles(Said(conditions, true))), if Said(conditions, true) == [] then None
        else Some(SomeHolds(Said(conditions, true), tests)), tests)
  {
    MergedHolds(conditions, tests);
    MergedSays(conditions);
    SaysOne(Fields(Merged(conditions)), tests);
    SomeSaid(conditions, tests);
    OrSays(Singles(Said(conditions, true)), Truths(Singles(Said(conditions, true)), tests), tests);
    hide Merged, Said, Truths, Selects, AllHold, SomeHolds;
  }

  /** Clauses one after the other say the conjunction. */
  lemma AndSays(a: seq<Match>, x: Option<bool>, b: seq<Match>, y: Option<bool>, tests: Tests)
    requires Conj(a, x, tests) && Says(b, y, tests)
    ensures Conj(a + b, And(x, y), tests)
  {
    TruthsConcat(a, b, tests);
  }

  ghost predicate Conj(clauses: seq<Match>, b: Option<bool>, tests: Tests) {
    && (b.None? <==> clauses == [])
    && (b.Some? ==> (b.value <==> false !in Truths(clauses, tests)))
    && forall m <- clauses :: m != NOTHING
  }

  lemma SaysConj(clauses: seq<Match>, b: Option<bool>, tests: Tests)
    requires Says(clauses, b, tests)
    ensures Conj(clauses, b, tests)
  {
    assert |clauses| == |Truths(clauses, tests)| == |ToSeq(b)|;
  }

  /**
   * `#build_match` means the filter: at any nesting, for any document, the match selects it exactly
   * when the filter holds of it, and the match is empty exactly when the filter says nothing.
   */
  lemma {:induction false} CompiledMeans(f: Filters, tests: Tests)
    requires Clean(f)
    ensures Compiled(f) == NOTHING <==> Meaning(f, tests) == None
    ensures Meaning(f, tests).Some? ==> Selects(Compiled(f), tests) == Meaning(f, tests).value
    decreases f, 1
  {
    SaidSay(f.conditions, true);
    OwnSays(f.conditions, tests);
    AllSays(f.all, tests);
    BranchesSay(f.any, tests);
    BranchesSay(f.none, tests);
    var plain, likes := Said(f.conditions, false), Said(f.conditions, true);
    var c0, c1, c2, c3, c4 := Alone(Fields(Merged(f.conditions))), OrOf(Singles(likes)), CompiledAll(f.all),
        OrOf(BranchesOf(f.any)), NorOf(BranchesOf(f.none));
    var b0 := if plain == [] then None else Some(AllHold(plain, tests));
    var b1 := if likes == [] then None else Some(SomeHolds(likes, tests));
    SaysConj(c0, b0, tests);
    AndSays(c0, b0, c1, b1, tests);
    AndSays(c0 + c1, And(b0, b1), c2, AllOf(f.all, tests), tests);
    AndSays(c0 + c1 + c2, And(And(b0, b1), AllOf(f.all, tests)), c3, SomeOf(f.any, tests), tests);
    AndSays(c0 + c1 + c2 + c3, And(And(And(b0, b1), AllOf(f.all, tests)), SomeOf(f.any, tests)), c4,
      NoneOf(f.none, tests), tests);
    ConjoinedHolds(c0 + c1 + c2 + c3 + c4, tests);
    hide Said, Merged, Singles, Alone, OrOf, NorOf, CompiledAll, BranchesOf, AllOf, SomeOf, NoneOf, AllHold, SomeHolds,
      Says, Truths, Conjoined, Selects, And;
  }
}
