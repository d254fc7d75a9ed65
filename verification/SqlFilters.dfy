/**
 * Nested filters as SQL text: what `#build_group` prints, read back with SQL's precedence and its
 * numbered parameters, is true of a row exactly when the filter is. packages/postgres/src/PostgresQuery.ts
 * and packages/postgres/src/Sql.ts.
 *
 * Values arrive coerced to the type their operator compares; identifiers are well formed.
 */
module SqlFilters {
  import opened Wrappers
  import opened Documents
  import opened Utf16
  import Keyset

  type Row = Keyset.Row

  // --- Filters and what they mean ---

  datatype Test = Eq | Ne | Lt | Lte | Gt | Gte | In | Nin | IsNull | NotNull | Like

  /** `field:op = value`; `None` is an operator that is not translated. */
  datatype Condition = Condition(field: string, test: Option<Test>, value: Value)

  /** The fields of one level, then its `:and`, `:or` and `:not`. */
  datatype Filters = Filters(conditions: seq<Condition>, all: Option<Filters>, any: Option<Filters>,
      none: Option<Filters>)

  /** SQL's truth values. */
  datatype Truth = True | False | Unknown

  function Both(a: Truth, b: Truth): Truth {
    if a.False? || b.False? then False else if a.True? && b.True? then True else Unknown
  }

  function Either(a: Truth, b: Truth): Truth {
    if a.True? || b.True? then True else if a.False? && b.False? then False else Unknown
  }

  function Not(a: Truth): Truth {
    match a
    case True => False
    case False => True
    case Unknown => Unknown
  }

  function Is(b: bool): Truth { if b then True else False }

  /** A comparison with NULL is unknown. */
  function Known(cell: Value, value: Value, b: bool): Truth {
    if cell == Null || value == Null then Unknown else Is(b)
  }

  function EqualsAny(cell: Value, items: seq<Value>): Truth {
    if items == [] then False else Either(Known(cell, items[0], cell == items[0]), EqualsAny(cell, items[1..]))
  }

  function Items(value: Value): seq<Value> {
    if value.Arr? then value.items else []
  }

  /** ASCII letters only. */
  function Fold(text: Text): Text {
    Lower(text)
  }

  predicate StartsWith(text: Text, term: Text) {
    |term| <= |text| && text[..|term|] == term
  }

  predicate Contains(text: Text, term: Text) {
    exists k :: 0 <= k <= |text| && StartsWith(text[k..], term)
  }

  /** What a test says of a cell. */
  function Means(test: Test, cell: Value, value: Value): Truth {
    match test
    case Eq => Known(cell, value, cell == value)
    case Ne => Is(cell != value)
    case Lt => Known(cell, value, ValueOrder(cell, value) < 0)
    case Lte => Known(cell, value, ValueOrder(cell, value) <= 0)
    case Gt => Known(cell, value, ValueOrder(cell, value) > 0)
    case Gte => Known(cell, value, ValueOrder(cell, value) >= 0)
    case In => EqualsAny(cell, Items(value))
    case Nin => if cell == Null then True else Not(EqualsAny(cell, Items(value)))
    case IsNull => Is(cell == Null)
    case NotNull => Is(cell != Null)
    case Like => Known(cell, value, cell.Str? && value.Str? && Contains(Fold(cell.s), Fold(value.s)))
  }

  /** Truths joined one way; nothing to join is no condition. */
  function Joined(any: bool, a: Option<Truth>, b: Option<Truth>): Option<Truth> {
    if a.None? then b
    else if b.None? then a
    else Some(if any then Either(a.value, b.value) else Both(a.value, b.value))
  }

  function ConditionMeans(c: Condition, row: Row): Option<Truth> {
    if c.test.None? then None else Some(Means(c.test.value, Keyset.Cell(row, c.field), c.value))
  }

  function IsLike(c: Condition): bool { c.test == Some(Like) }

  /** The conditions of a level that are likes, or the others, joined. */
  function Level(conditions: seq<Condition>, row: Row, likes: bool, any: bool): Option<Truth> {
    if conditions == [] then None
    else
      var init, last := conditions[..|conditions| - 1], conditions[|conditions| - 1];
      Joined(any, Level(init, row, likes, any), if IsLike(last) == likes then ConditionMeans(last, row) else None)
  }

  /**
   * What a filter says of a row; `any` when it stands in an `:or`. The likes of a level are
   * alternatives of each other; `:not` is true when its conditions are not all true. `None`: nothing.
   */
  function FilterMeans(f: Filters, any: bool, row: Row): Option<Truth> {
    var own := Joined(any, Level(f.conditions, row, false, any), Level(f.conditions, row, true, true));
    var withAll := Joined(any, own, if f.all.Some? then FilterMeans(f.all.value, false, row) else None);
    var withAny := Joined(any, withAll, if f.any.Some? then FilterMeans(f.any.value, true, row) else None);
    var none := if f.none.Some? then FilterMeans(f.none.value, false, row) else None;
    Joined(any, withAny, if none.Some? then Some(Not(none.value)) else None)
  }

  // --- The text ---

  /** A predicate on one column; `n` is its numbered parameter. */
  datatype Leaf =
    | Equals(n: nat) | Distinct(n: nat) | Less(n: nat) | LessEq(n: nat) | Greater(n: nat) | GreaterEq(n: nat)
    | AnyOf(n: nat) | DistinctAll(n: nat) | NullTest | NotNullTest | ILike(n: nat)

  datatype Token = Open | Close | AndT | OrT | NotT | LeafT(column: string, leaf: Leaf)

  const PERCENT: Unit := 37
  const UNDERSCORE: Unit := 95
  const BACKSLASH: Unit := 92

  /** `escapeLike` */
  function Escaped(term: Text): Text {
    if term == [] then []
    else (if term[0] in {PERCENT, UNDERSCORE, BACKSLASH} then [BACKSLASH, term[0]] else [term[0]]) + Escaped(term[1..])
  }

  function Pattern(value: Value): Value {
    if value.Str? then Str([PERCENT] + Escaped(value.s) + [PERCENT]) else value
  }

  /** What a condition binds; a null test binds nothing. */
  function BoundValue(c: Condition): Value {
    if IsLike(c) then Pattern(c.value) else c.value
  }

  function LeafOf(test: Test, n: nat): Leaf {
    match test
    case Eq => Equals(n)
    case Ne => Distinct(n)
    case Lt => Less(n)
    case Lte => LessEq(n)
    case Gt => Greater(n)
    case Gte => GreaterEq(n)
    case In => AnyOf(n)
    case Nin => DistinctAll(n)
    case IsNull => NullTest
    case NotNull => NotNullTest
    case Like => ILike(n)
  }

  predicate Binds(test: Test) {
    !test.IsNull? && !test.NotNull?
  }

  /** The tokens of a condition, and the parameters once it is bound. */
  function Printed(c: Condition, values: seq<Value>): (seq<Token>, seq<Value>)
    requires c.test.Some?
  {
    var leaf := LeafT(c.field, LeafOf(c.test.value, |values| + 1));
    (if c.test == Some(Nin) then [Open, leaf, OrT, LeafT(c.field, NullTest), Close] else [leaf],
     if Binds(c.test.value) then values + [BoundValue(c)] else values)
  }

  // --- Reading it back ---

  datatype Expr = LeafE(column: string, leaf: Leaf) | NotE(e: Expr) | AndE(l: Expr, r: Expr) | OrE(l: Expr, r: Expr)

  /** A reading: the expression and the tokens after it. */
  type Reading = Option<(Expr, seq<Token>)>

  /** NOT binds tightest. */
  function ReadUnit(ts: seq<Token>): (r: Reading)
    ensures r.Some? ==> |r.value.1| < |ts|
    decreases |ts|, 0
  {
    if ts == [] then None
    else match ts[0]
      case LeafT(column, leaf) => Some((LeafE(column, leaf), ts[1..]))
      case NotT => var r := ReadUnit(ts[1..]); if r.Some? then Some((NotE(r.value.0), r.value.1)) else None
      case Open =>
        var r := ReadOr(ts[1..]);
        if r.Some? && r.value.1 != [] && r.value.1[0].Close? then Some((r.value.0, r.value.1[1..])) else None
      case _ => None
  }

  /** Then AND. */
  function ReadAnd(ts: seq<Token>): (r: Reading)
    ensures r.Some? ==> |r.value.1| < |ts|
    decreases |ts|, 1
  {
    var r := ReadUnit(ts);
    if r.Some? then ReadAnds(r.value.0, r.value.1) else None
  }

  function ReadAnds(e: Expr, ts: seq<Token>): (r: Reading)
    ensures r.Some? ==> |r.value.1| <= |ts|
    decreases |ts|, 2
  {
    if ts == [] || !ts[0].AndT? then Some((e, ts))
    else
      var r := ReadUnit(ts[1..]);
      if r.Some? then ReadAnds(AndE(e, r.value.0), r.value.1) else None
  }

  /** OR last. */
  function ReadOr(ts: seq<Token>): (r: Reading)
    ensures r.Some? ==> |r.value.1| < |ts|
    decreases |ts|, 3
  {
    var r := ReadAnd(ts);
    if r.Some? then ReadOrs(r.value.0, r.value.1) else None
  }

  function ReadOrs(e: Expr, ts: seq<Token>): (r: Reading)
    ensures r.Some? ==> |r.value.1| <= |ts|
    decreases |ts|, 4
  {
    if ts == [] || !ts[0].OrT? then Some((e, ts))
    else
      var r := ReadAnd(ts[1..]);
      if r.Some? then ReadOrs(OrE(e, r.value.0), r.value.1) else None
  }

  // --- Evaluating it ---

  /** LIKE, with backslash as the escape character. */
  predicate Matches(pattern: Text, text: Text)
    decreases |pattern|, |text|
  {
    if pattern == [] then text == []
    else if pattern[0] == PERCENT then Matches(pattern[1..], text) || (text != [] && Matches(pattern, text[1..]))
    else if pattern[0] == UNDERSCORE then text != [] && Matches(pattern[1..], text[1..])
    else if pattern[0] == BACKSLASH && |pattern| > 1 then text != [] && text[0] == pattern[1]
        && Matches(pattern[2..], text[1..])
    else text != [] && text[0] == pattern[0] && Matches(pattern[1..], text[1..])
  }

  function Param(values: seq<Value>, n: nat): Value {
    if 1 <= n <= |values| then values[n - 1] else Null
  }

  function LeafMeans(leaf: Leaf, cell: Value, values: seq<Value>): Truth {
    match leaf
    case Equals(n) => var v := Param(values, n); Known(cell, v, cell == v)
    case Distinct(n) => Is(cell != Param(values, n))
    case Less(n) => var v := Param(values, n); Known(cell, v, ValueOrder(cell, v) < 0)
    case LessEq(n) => var v := Param(values, n); Known(cell, v, ValueOrder(cell, v) <= 0)
    case Greater(n) => var v := Param(values, n); Known(cell, v, ValueOrder(cell, v) > 0)
    case GreaterEq(n) => var v := Param(values, n); Known(cell, v, ValueOrder(cell, v) >= 0)
    case AnyOf(n) => EqualsAny(cell, Items(Param(values, n)))
    case DistinctAll(n) => Not(EqualsAny(cell, Items(Param(values, n))))
    case NullTest => Is(cell == Null)
    case NotNullTest => Is(cell != Null)
    case ILike(n) => var v := Param(values, n); Known(cell, v, cell.Str? && v.Str? && Matches(Fold(v.s), Fold(cell.s)))
  }

  function Evaluate(e: Expr, row: Row, values: seq<Value>): Truth {
    match e
    case LeafE(column, leaf) => LeafMeans(leaf, Keyset.Cell(row, column), values)
    case NotE(x) => Not(Evaluate(x, row, values))
    case AndE(l, r) => Both(Evaluate(l, row, values), Evaluate(r, row, values))
    case OrE(l, r) => Either(Evaluate(l, row, values), Evaluate(r, row, values))
  }

  // --- Printing groups ---

  function Tail(pieces: seq<seq<Token>>, separator: Token): seq<Token> {
    if pieces == [] then [] else [separator] + pieces[0] + Tail(pieces[1..], separator)
  }

  /** `pieces.join(separator)` */
  function Join(pieces: seq<seq<Token>>, separator: Token): seq<Token> {
    if pieces == [] then [] else pieces[0] + Tail(pieces[1..], separator)
  }

  function Separator(any: bool): Token { if any then OrT else AndT }

  /** The predicates and the likes of a level, with the parameters bound in the order they are met. */
  datatype Listing = Listing(predicates: seq<seq<Token>>, likes: seq<seq<Token>>, values: seq<Value>)

  function PrintedLevel(conditions: seq<Condition>, values: seq<Value>): Listing {
    if conditions == [] then Listing([], [], values)
    else
      var before := PrintedLevel(conditions[..|conditions| - 1], values);
      var last := conditions[|conditions| - 1];
      if last.test.None? then before
      else
        var (tokens, bound) := Printed(last, before.values);
        if IsLike(last) then Listing(before.predicates, before.likes + [tokens], bound)
        else Listing(before.predicates + [tokens], before.likes, bound)
  }

  function Parenthesized(tokens: seq<Token>): seq<Token> { [Open] + tokens + [Close] }

  function WithLikes(level: Listing): seq<seq<Token>> {
    if level.likes == [] then level.predicates
    else level.predicates + [if |level.likes| == 1 then level.likes[0] else Parenthesized(Join(level.likes, OrT))]
  }

  function With(pieces: seq<seq<Token>>, piece: seq<Token>, prefix: seq<Token>): seq<seq<Token>> {
    if piece == [] then pieces else pieces + [prefix + Parenthesized(piece)]
  }

  /** The text of a group; nothing to say prints nothing. */
  function Group(f: Filters, any: bool, values: seq<Value>): (seq<Token>, seq<Value>) {
    var level := PrintedLevel(f.conditions, values);
    var (all, values1) := if f.all.Some? then Group(f.all.value, false, level.values) else ([], level.values);
    var (anyOf, values2) := if f.any.Some? then Group(f.any.value, true, values1) else ([], values1);
    var (none, values3) := if f.none.Some? then Group(f.none.value, false, values2) else ([], values2);
    (Join(With(With(With(WithLikes(level), all, []), anyOf, []), none, [NotT]), Separator(any)), values3)
  }

  /** `#build_group`: one pass over the fields, then the nested groups. */
  method BuildGroup(sql: Keyset.Sql, f: Option<Filters>, any: bool) returns (text: seq<Token>)
    modifies sql
    ensures f.None? ==> text == [] && sql.values == old(sql.values)
    ensures f.Some? ==> (text, sql.values) == Group(f.value, any, old(sql.values))
    decreases f
  {
    if f.None? {
      return [];
    }
    hide PrintedLevel, Join;
    var predicates, likes := PrintLevel(sql, f.value.conditions);
    if likes != [] {
      predicates := predicates + [if |likes| == 1 then likes[0] else Parenthesized(Join(likes, OrT))];
    }
    var all := BuildGroup(sql, f.value.all, false);
    if all != [] {
      predicates := predicates + [[] + Parenthesized(all)];
    }
    var anyOf := BuildGroup(sql, f.value.any, true);
    if anyOf != [] {
      predicates := predicates + [[] + Parenthesized(anyOf)];
    }
    var none := BuildGroup(sql, f.value.none, false);
    if none != [] {
      predicates := predicates + [[NotT] + Parenthesized(none)];
    }
    return Join(predicates, Separator(any));
  }

  /** One pass over the fields of a level. */
  method PrintLevel(sql: Keyset.Sql, conditions: seq<Condition>)
      returns (predicates: seq<seq<Token>>, likes: seq<seq<Token>>)
    modifies sql
    ensures Listing(predicates, likes, sql.values) == PrintedLevel(conditions, old(sql.values))
  {
    hide Printed;
    predicates, likes := [], [];
    var i := 0;
    assert conditions[..0] == [];
    while i < |conditions|
      invariant 0 <= i <= |conditions|
      invariant Listing(predicates, likes, sql.values) == PrintedLevel(conditions[..i], old(sql.values))
    {
      var c := conditions[i];
      assert conditions[..i + 1][..i] == conditions[..i];
      i := i + 1;
      if c.test.None? {
        continue;
      }
      var tokens := PrintCondition(sql, c);
      if IsLike(c) {
        likes := likes + [tokens];
      } else {
        predicates := predicates + [tokens];
      }
    }
    assert conditions[..i] == conditions;
  }

  method PrintCondition(sql: Keyset.Sql, c: Condition) returns (tokens: seq<Token>)
    requires c.test.Some?
    modifies sql
    ensures (tokens, sql.values) == Printed(c, old(sql.values))
  {
    var n := 0;
    if Binds(c.test.value) {
      n := sql.Param(BoundValue(c));
    }
    var leaf := LeafT(c.field, LeafOf(c.test.value, n));
    if c.test == Some(Nin) {
      return [Open, leaf, OrT, LeafT(c.field, NullTest), Close];
    }
    return [leaf];
  }

  // --- The text reads back ---

  /** Whatever follows, the tokens read as one operand. */
  ghost predicate UnitReads(tokens: seq<Token>, e: Expr) {
    forall rest :: ReadUnit(tokens + rest) == Some((e, rest))
  }

  predicate Ends(rest: seq<Token>) {
    rest == [] || rest[0].Close?
  }

  /** The tokens read as a whole expression, alone or before a closing parenthesis. */
  ghost predicate Reads(tokens: seq<Token>, e: Expr) {
    forall rest :: Ends(rest) ==> ReadOr(tokens + rest) == Some((e, rest))
  }

  function Chain(es: seq<Expr>, any: bool): Expr
    requires es != []
  {
    if |es| == 1 then es[0]
    else
      var init, last := Chain(es[..|es| - 1], any), es[|es| - 1];
      if any then OrE(init, last) else AndE(init, last)
  }

  ghost predicate AllUnits(pieces: seq<seq<Token>>, es: seq<Expr>) {
    |pieces| == |es| && forall i :: 0 <= i < |es| ==> UnitReads(pieces[i], es[i])
  }

  lemma FoldStep(es: seq<Expr>, any: bool, k: nat)
    requires 0 < k < |es|
    ensures Chain(es[..k + 1], any) == if any then OrE(Chain(es[..k], any), es[k]) else AndE(Chain(es[..k], any), es[k])
  {
    assert es[..k + 1][..k] == es[..k];
  }

  lemma TailIs(pieces: seq<seq<Token>>, k: nat, separator: Token, rest: seq<Token>)
    requires k <= |pieces|
    ensures k == |pieces| ==> Tail(pieces[k..], separator) + rest == rest
    ensures k < |pieces| ==>
              Tail(pieces[k..], separator) + rest == [separator]
                + (pieces[k] + (Tail(pieces[k + 1..], separator) + rest))
  {
    if k < |pieces| {
      assert pieces[k..][1..] == pieces[k + 1..];
      assert pieces[k..][0] == pieces[k];
      Associates([separator], pieces[k], Tail(pieces[k + 1..], separator), rest);
    } else {
      assert Tail(pieces[k..], separator) == [];
    }
  }

  lemma Associates(a: seq<Token>, b: seq<Token>, c: seq<Token>, d: seq<Token>)
    ensures a + b + c + d == a + (b + (c + d))
  {
  }

  lemma AndsStep(e: Expr, piece: seq<Token>, x: Expr, after: seq<Token>)
    requires UnitReads(piece, x)
    ensures ReadAnds(e, [AndT] + (piece + after)) == ReadAnds(AndE(e, x), after)
  {
    assert ([AndT] + (piece + after))[1..] == piece + after;
    assert ReadUnit(piece + after) == Some((x, after));
    hide ReadUnit, UnitReads;
  }

  lemma OrsStep(e: Expr, piece: seq<Token>, x: Expr, after: seq<Token>)
    requires UnitReads(piece, x) && (after == [] || !after[0].AndT?)
    ensures ReadOrs(e, [OrT] + (piece + after)) == ReadOrs(OrE(e, x), after)
  {
    assert ([OrT] + (piece + after))[1..] == piece + after;
    OperandReads(piece, x, after);
    hide ReadAnd, UnitReads;
  }

  lemma ChainEnds(es: seq<Expr>, any: bool, k: nat)
    requires 0 < k <= |es|
    ensures k == |es| ==> Chain(es[..k], any) == Chain(es, any)
    ensures k == 1 ==> Chain(es[..k], any) == es[0]
  {
    if k == |es| { assert es[..k] == es; }
  }

  lemma {:induction false} AndsRead(pieces: seq<seq<Token>>, es: seq<Expr>, k: nat, rest: seq<Token>)
    requires AllUnits(pieces, es) && 0 < k <= |es| && Ends(rest)
    ensures ReadAnds(Chain(es[..k], false), Tail(pieces[k..], AndT) + rest) == Some((Chain(es, false), rest))
    decreases |es| - k
  {
    TailIs(pieces, k, AndT, rest);
    ChainEnds(es, false, k);
    if k < |es| {
      FoldStep(es, false, k);
      AndsStep(Chain(es[..k], false), pieces[k], es[k], Tail(pieces[k + 1..], AndT) + rest);
      AndsRead(pieces, es, k + 1, rest);
      hide *;
    }
  }

  /** An operand not followed by AND is an operand of OR. */
  lemma OperandReads(piece: seq<Token>, e: Expr, after: seq<Token>)
    requires UnitReads(piece, e) && (after == [] || !after[0].AndT?)
    ensures ReadAnd(piece + after) == Some((e, after))
  {
    assert ReadUnit(piece + after) == Some((e, after));
    hide ReadUnit;
  }

  lemma {:induction false} OrsRead(pieces: seq<seq<Token>>, es: seq<Expr>, k: nat, rest: seq<Token>)
    requires AllUnits(pieces, es) && 0 < k <= |es| && Ends(rest)
    ensures ReadOrs(Chain(es[..k], true), Tail(pieces[k..], OrT) + rest) == Some((Chain(es, true), rest))
    decreases |es| - k
  {
    TailIs(pieces, k, OrT, rest);
    ChainEnds(es, true, k);
    if k < |es| {
      FoldStep(es, true, k);
      TailStarts(pieces[k + 1..], OrT, rest);
      OrsStep(Chain(es[..k], true), pieces[k], es[k], Tail(pieces[k + 1..], OrT) + rest);
      OrsRead(pieces, es, k + 1, rest);
      hide *;
    }
  }

  lemma TailStarts(pieces: seq<seq<Token>>, separator: Token, rest: seq<Token>)
    requires Ends(rest) && !separator.Close?
    ensures var after := Tail(pieces, separator) + rest;
            (after == rest || (after != [] && after[0] == separator))
              && (separator.OrT? ==> after == [] || !after[0].AndT?)
  {
    if pieces == [] { assert Tail(pieces, separator) + rest == rest; }
  }

  /** Operands joined by one operator read as the fold of their expressions. */
  lemma JoinReads(pieces: seq<seq<Token>>, es: seq<Expr>, any: bool)
    requires AllUnits(pieces, es) && es != []
    ensures Reads(Join(pieces, Separator(any)), Chain(es, any))
  {
    forall rest | Ends(rest)
      ensures ReadOr(Join(pieces, Separator(any)) + rest) == Some((Chain(es, any), rest))
    {
      if any { JoinedByOr(pieces, es, rest); } else { JoinedByAnd(pieces, es, rest); }
    }
  }

  lemma JoinIs(pieces: seq<seq<Token>>, separator: Token, rest: seq<Token>)
    requires pieces != []
    ensures Join(pieces, separator) + rest == pieces[0] + (Tail(pieces[1..], separator) + rest)
  {
  }

  lemma JoinedByAnd(pieces: seq<seq<Token>>, es: seq<Expr>, rest: seq<Token>)
    requires AllUnits(pieces, es) && es != [] && Ends(rest)
    ensures ReadOr(Join(pieces, AndT) + rest) == Some((Chain(es, false), rest))
  {
    var after := Tail(pieces[1..], AndT) + rest;
    JoinIs(pieces, AndT, rest);
    assert UnitReads(pieces[0], es[0]);
    assert ReadUnit(pieces[0] + after) == Some((es[0], after));
    AndsRead(pieces, es, 1, rest);
    ChainEnds(es, false, 1);
    hide ReadUnit, Join, Tail, Chain, UnitReads, AllUnits;
    assert ReadAnd(pieces[0] + after) == ReadAnds(es[0], after);
    hide ReadAnds, ReadAnd;
  }

  lemma JoinedByOr(pieces: seq<seq<Token>>, es: seq<Expr>, rest: seq<Token>)
    requires AllUnits(pieces, es) && es != [] && Ends(rest)
    ensures ReadOr(Join(pieces, OrT) + rest) == Some((Chain(es, true), rest))
  {
    var after := Tail(pieces[1..], OrT) + rest;
    JoinIs(pieces, OrT, rest);
    TailStarts(pieces[1..], OrT, rest);
    assert UnitReads(pieces[0], es[0]);
    OperandReads(pieces[0], es[0], after);
    OrsRead(pieces, es, 1, rest);
    ChainEnds(es, true, 1);
    hide ReadUnit, ReadAnd, ReadOrs, Join, Tail, Chain, UnitReads, AllUnits;
  }

  lemma ParenthesesRead(tokens: seq<Token>, e: Expr)
    requires Reads(tokens, e)
    ensures UnitReads(Parenthesized(tokens), e) && UnitReads([NotT] + Parenthesized(tokens), NotE(e))
  {
    forall rest
      ensures ReadUnit(Parenthesized(tokens) + rest) == Some((e, rest))
      ensures ReadUnit([NotT] + Parenthesized(tokens) + rest) == Some((NotE(e), rest))
    {
      assert Parenthesized(tokens) + rest == [Open] + (tokens + ([Close] + rest));
      assert Ends([Close] + rest);
      assert [NotT] + Parenthesized(tokens) + rest == [NotT] + (Parenthesized(tokens) + rest);
    }
  }

  // --- LIKE ---

  lemma {:induction false} EscapedReads(term: Text, text: Text)
    ensures Matches(Escaped(term) + [PERCENT], text) <==> StartsWith(text, term)
    decreases |term|
  {
    if term == [] {
      AnythingMatches(text);
      assert Escaped(term) + [PERCENT] == [PERCENT];
      assert text[..0] == [];
    } else {
      var c, tail := term[0], Escaped(term[1..]) + [PERCENT];
      if text != [] { EscapedReads(term[1..], text[1..]); }
      if c in {PERCENT, UNDERSCORE, BACKSLASH} {
        assert Escaped(term) + [PERCENT] == [BACKSLASH, c] + tail;
        assert ([BACKSLASH, c] + tail)[2..] == tail;
      } else {
        assert Escaped(term) + [PERCENT] == [c] + tail;
      }
      StartsStep(text, term);
    }
  }

  lemma StartsStep(text: Text, term: Text)
    requires term != []
    ensures StartsWith(text, term) <==> text != [] && text[0] == term[0] && StartsWith(text[1..], term[1..])
  {
    if text != [] && |term| <= |text| {
      assert text[..|term|] == [text[0]] + text[1..][..|term| - 1];
      assert term == [term[0]] + term[1..];
    }
  }

  lemma {:induction false} AnythingMatches(text: Text)
    ensures Matches([PERCENT], text)
    decreases |text|
  {
    if text != [] { AnythingMatches(text[1..]); }
  }

  lemma {:induction false} PercentSkips(pattern: Text, text: Text)
    ensures Matches([PERCENT] + pattern, text) <==> exists k :: 0 <= k <= |text| && Matches(pattern, text[k..])
    decreases |text|
  {
    assert ([PERCENT] + pattern)[1..] == pattern;
    assert text[0..] == text;
    if text != [] {
      PercentSkips(pattern, text[1..]);
      assert forall k :: 0 < k <= |text| ==> text[k..] == text[1..][k - 1..];
      if k :| 0 < k <= |text| && Matches(pattern, text[k..]) {
        assert Matches(pattern, text[1..][k - 1..]);
      }
      if k :| 0 <= k <= |text[1..]| && Matches(pattern, text[1..][k..]) {
        assert text[1..][k..] == text[k + 1..];
      }
    }
  }

  lemma {:induction false} FoldsApart(term: Text)
    ensures Fold(Escaped(term)) == Escaped(Fold(term))
    decreases |term|
  {
    if term != [] {
      FoldsApart(term[1..]);
      var head := if term[0] in {PERCENT, UNDERSCORE, BACKSLASH} then [BACKSLASH, term[0]] else [term[0]];
      FoldConcat(head, Escaped(term[1..]));
      assert Fold(term) == [LowerUnit(term[0])] + Fold(term[1..]);
      assert Fold(term)[1..] == Fold(term[1..]);
    }
  }

  lemma FoldConcat(a: Text, b: Text)
    ensures Fold(a + b) == Fold(a) + Fold(b)
  {
  }

  /** The wildcards a user types match themselves: the pattern finds exactly the texts that contain the term. */
  lemma LikeIsLiteral(term: Text, text: Text)
    ensures Matches(Fold([PERCENT] + Escaped(term) + [PERCENT]), Fold(text)) <==> Contains(Fold(text), Fold(term))
  {
    FoldConcat([PERCENT] + Escaped(term), [PERCENT]);
    FoldConcat([PERCENT], Escaped(term));
    FoldsApart(term);
    var pattern, t := Escaped(Fold(term)) + [PERCENT], Fold(text);
    assert Fold([PERCENT]) == [PERCENT];
    assert Fold([PERCENT] + Escaped(term) + [PERCENT]) == [PERCENT] + pattern;
    PercentSkips(pattern, t);
    forall k | 0 <= k <= |t|
      ensures Matches(pattern, t[k..]) <==> StartsWith(t[k..], Fold(term))
    {
      EscapedReads(Fold(term), t[k..]);
    }
    hide Matches, StartsWith, Fold, Escaped;
  }

  // --- The text means the filter ---

  function Total(es: seq<Expr>, any: bool, row: Row, values: seq<Value>): Option<Truth> {
    if es == [] then None
    else Joined(any, Total(es[..|es| - 1], any, row, values), Some(Evaluate(es[|es| - 1], row, values)))
  }

  lemma {:induction false} ChainMeans(es: seq<Expr>, any: bool, row: Row, values: seq<Value>)
    requires es != []
    ensures Total(es, any, row, values) == Some(Evaluate(Chain(es, any), row, values))
    decreases |es|
  {
    if |es| > 1 {
      ChainMeans(es[..|es| - 1], any, row, values);
    }
  }

  lemma TotalSnoc(es: seq<Expr>, e: Expr, any: bool, row: Row, values: seq<Value>)
    ensures Total(es + [e], any, row, values) == Joined(any, Total(es, any, row, values),
        Some(Evaluate(e, row, values)))
  {
    assert (es + [e])[..|es|] == es;
  }

  lemma UnitsSnoc(pieces: seq<seq<Token>>, es: seq<Expr>, piece: seq<Token>, e: Expr)
    requires AllUnits(pieces, es) && UnitReads(piece, e)
    ensures AllUnits(pieces + [piece], es + [e])
  {
  }

  lemma LeafReads(column: string, leaf: Leaf)
    ensures UnitReads([LeafT(column, leaf)], LeafE(column, leaf))
  {
  }

  lemma ConditionReads(c: Condition, values: seq<Value>) returns (e: Expr)
    requires c.test.Some?
    ensures values <= Printed(c, values).1 && UnitReads(Printed(c, values).0, e)
    ensures forall row, more :: Printed(c, values).1 <= more ==> Some(Evaluate(e, row, more)) == ConditionMeans(c, row)
  {
    var test, n := c.test.value, |values| + 1;
    var leaf := LeafE(c.field, LeafOf(test, n));
    if test.Nin? {
      e := OrE(leaf, LeafE(c.field, NullTest));
      NinReads(c.field, n);
    } else {
      e := leaf;
      LeafReads(c.field, LeafOf(test, n));
    }
    forall row, more | Printed(c, values).1 <= more
      ensures Some(Evaluate(e, row, more)) == ConditionMeans(c, row)
    {
      ParamIs(c, values, more);
      if test.Nin? { NinMeansIt(Keyset.Cell(row, c.field), c.value, more, n); }
          else { LeafMeansIt(test, Keyset.Cell(row, c.field), c.value, more, n); }
      hide UnitReads, LeafMeans, Means, ValueOrder, Pattern, Param;
    }
    hide *;
  }

  lemma ParamIs(c: Condition, values: seq<Value>, more: seq<Value>)
    requires c.test.Some? && Printed(c, values).1 <= more
    ensures Binds(c.test.value) ==> Param(more, |values| + 1) == BoundValue(c)
  {
  }

  lemma NinMeansIt(cell: Value, value: Value, more: seq<Value>, n: nat)
    requires Param(more, n) == value
    ensures Either(LeafMeans(DistinctAll(n), cell, more), LeafMeans(NullTest, cell, more)) == Means(Nin, cell, value)
  {
    hide EqualsAny, Param;
  }

  lemma LeafMeansIt(test: Test, cell: Value, value: Value, more: seq<Value>, n: nat)
    requires !test.Nin? && (Binds(test) ==> Param(more, n) == if test.Like? then Pattern(value) else value)
    ensures LeafMeans(LeafOf(test, n), cell, more) == Means(test, cell, value)
  {
    hide Param, ValueOrder, EqualsAny;
    if test.Like? {
      if cell.Str? && value.Str? {
        LikeIsLiteral(value.s, cell.s);
      }
      hide Matches, Contains, Escaped, Fold;
    }
  }

  lemma NinReads(column: string, n: nat)
    ensures UnitReads([Open, LeafT(column, DistinctAll(n)), OrT, LeafT(column, NullTest), Close],
        OrE(LeafE(column, DistinctAll(n)), LeafE(column, NullTest)))
  {
    var a, b := LeafE(column, DistinctAll(n)), LeafE(column, NullTest);
    LeafReads(column, DistinctAll(n));
    LeafReads(column, NullTest);
    var pieces := [[LeafT(column, DistinctAll(n))], [LeafT(column, NullTest)]];
    JoinReads(pieces, [a, b], true);
    assert Join(pieces, OrT) == [LeafT(column, DistinctAll(n)), OrT, LeafT(column, NullTest)] by {
      assert pieces[1..] == [pieces[1]];
      assert [pieces[1]][1..] == [];
      assert Tail([], OrT) == [];
      assert Tail([pieces[1]], OrT) == [OrT] + pieces[1] + [];
    }
    assert Chain([a, b], true) == OrE(a, b) by {
      assert [a, b][..1] == [a];
    }
    ParenthesesRead(Join(pieces, OrT), OrE(a, b));
    assert Parenthesized(Join(pieces, OrT)) == [Open, LeafT(column, DistinctAll(n)), OrT, LeafT(column, NullTest),
        Close];
  }

  /** The expressions of a level: its predicates and its likes, each meaning what its conditions do. */
  ghost predicate LevelReads(conditions: seq<Condition>, level: Listing, any: bool, es: seq<Expr>, likes: seq<Expr>) {
    && AllUnits(level.predicates, es) && AllUnits(level.likes, likes)
    && forall row, more :: level.values <= more ==>
         && Total(es, any, row, more) == Level(conditions, row, false, any)
         && Total(likes, true, row, more) == Level(conditions, row, true, true)
  }

  lemma {:induction false} LevelIsRead(conditions: seq<Condition>, values: seq<Value>, any: bool)
      returns (es: seq<Expr>, likes: seq<Expr>)
    ensures values <= PrintedLevel(conditions, values).values
    ensures LevelReads(conditions, PrintedLevel(conditions, values), any, es, likes)
    decreases |conditions|
  {
    if conditions == [] {
      return [], [];
    }
    var init, last := conditions[..|conditions| - 1], conditions[|conditions| - 1];
    es, likes := LevelIsRead(init, values, any);
    if last.test.None? {
      LevelSkips(init, last, any, PrintedLevel(init, values), es, likes);
      assert init + [last] == conditions;
      return;
    }
    var e := ConditionReads(last, PrintedLevel(init, values).values);
    LevelGrows(init, last, any, PrintedLevel(init, values), es, likes, e);
    assert init + [last] == conditions;
    if IsLike(last) { likes := likes + [e]; } else { es := es + [e]; }
  }

  lemma LevelSnoc(init: seq<Condition>, last: Condition, row: Row, likes: bool, any: bool)
    ensures Level(init + [last], row, likes, any) == Joined(any, Level(init, row, likes, any),
        if IsLike(last) == likes then ConditionMeans(last, row) else None)
  {
    assert (init + [last])[..|init|] == init;
  }

  lemma LevelSkips(init: seq<Condition>, last: Condition, any: bool, level: Listing, es: seq<Expr>, likes: seq<Expr>)
    requires last.test.None? && LevelReads(init, level, any, es, likes)
    ensures LevelReads(init + [last], level, any, es, likes)
  {
    hide Level, Total, AllUnits;
    forall row
      ensures Level(init + [last], row, false, any) == Level(init, row, false, any)
      ensures Level(init + [last], row, true, true) == Level(init, row, true, true)
    {
      LevelSnoc(init, last, row, false, any);
      LevelSnoc(init, last, row, true, true);
    }
  }

  lemma LevelGrows(init: seq<Condition>, last: Condition, any: bool, level: Listing, es: seq<Expr>, likes: seq<Expr>,
      e: Expr)
    requires last.test.Some? && LevelReads(init, level, any, es, likes)
    requires level.values <= Printed(last, level.values).1 && UnitReads(Printed(last, level.values).0, e)
    requires forall row, more :: Printed(last, level.values).1 <= more ==>
        Some(Evaluate(e, row, more)) == ConditionMeans(last, row)
    ensures var (tokens, bound) := Printed(last, level.values);
            if IsLike(last) then LevelReads(init + [last], Listing(level.predicates, level.likes + [tokens], bound),
                any, es, likes + [e])
            else LevelReads(init + [last], Listing(level.predicates + [tokens], level.likes, bound), any, es + [e],
                likes)
  {
    var (tokens, bound) := Printed(last, level.values);
    UnitsSnoc(level.predicates, es, tokens, e);
    UnitsSnoc(level.likes, likes, tokens, e);
    hide Level, Total, AllUnits, UnitReads, Printed, Evaluate, ConditionMeans;
    forall row, more | bound <= more
      ensures IsLike(last) ==>
          && Total(es, any, row, more) == Level(init + [last], row, false, any)
          && Total(likes + [e], true, row, more) == Level(init + [last], row, true, true)
      ensures !IsLike(last) ==>
          && Total(es + [e], any, row, more) == Level(init + [last], row, false, any)
          && Total(likes, true, row, more) == Level(init + [last], row, true, true)
    {
      assert level.values <= more;
      LevelSnoc(init, last, row, false, any);
      LevelSnoc(init, last, row, true, true);
      TotalSnoc(es, e, any, row, more);
      TotalSnoc(likes, e, true, row, more);
    }
  }

  /** The pieces read as `es`, which joined mean `meaning` once `values` are bound. */
  ghost predicate PiecesMean(pieces: seq<seq<Token>>, es: seq<Expr>, any: bool, values: seq<Value>,
      meaning: Row -> Option<Truth>) {
    AllUnits(pieces, es) && forall row, more :: values <= more ==> Total(es, any, row, more) == meaning(row)
  }

  /** A text, if there is one, reads as an expression that means `meaning`. */
  ghost predicate TextMeans(text: seq<Token>, e: Option<Expr>, values: seq<Value>, meaning: Row -> Option<Truth>) {
    && (text == [] <==> e.None?)
    && (e.None? ==> forall row :: meaning(row) == None)
    && (e.Some? ==> Reads(text, e.value) && forall row, more :: values <= more ==>
        meaning(row) == Some(Evaluate(e.value, row, more)))
  }

  lemma UnitIsSomething(piece: seq<Token>, e: Expr)
    requires UnitReads(piece, e)
    ensures piece != []
  {
    assert ReadUnit(piece + []) == Some((e, []));
  }

  /** Pieces joined make a text. */
  lemma JoinMeans(pieces: seq<seq<Token>>, es: seq<Expr>, any: bool, values: seq<Value>,
      meaning: Row -> Option<Truth>) returns (e: Option<Expr>)
    requires PiecesMean(pieces, es, any, values, meaning)
    ensures TextMeans(Join(pieces, Separator(any)), e, values, meaning)
    ensures e == if es == [] then None else Some(Chain(es, any))
  {
    if es == [] {
      forall row
        ensures meaning(row) == None
      {
        assert values <= values && Total(es, any, row, values) == meaning(row);
      }
      return None;
    }
    assert UnitReads(pieces[0], es[0]);
    UnitIsSomething(pieces[0], es[0]);
    JoinReads(pieces, es, any);
    forall row, more | values <= more
      ensures meaning(row) == Some(Evaluate(Chain(es, any), row, more))
    {
      ChainMeans(es, any, row, more);
    }
    hide Reads, Chain, UnitReads;
    return Some(Chain(es, any));
  }

  /** One more operand. */
  lemma PieceAdds(pieces: seq<seq<Token>>, es: seq<Expr>, any: bool, values: seq<Value>, meaning: Row -> Option<Truth>,
                  piece: seq<Token>, e: Expr, bound: seq<Value>, means: Row -> Truth)
    requires PiecesMean(pieces, es, any, values, meaning) && UnitReads(piece, e) && values <= bound
    requires forall row, more :: bound <= more ==> Evaluate(e, row, more) == means(row)
    ensures PiecesMean(pieces + [piece], es + [e], any, bound, row => Joined(any, meaning(row), Some(means(row))))
  {
    UnitsSnoc(pieces, es, piece, e);
    hide AllUnits, UnitReads, Total, Evaluate;
    forall row, more | bound <= more
      ensures Total(es + [e], any, row, more) == Joined(any, meaning(row), Some(means(row)))
    {
      TotalSnoc(es, e, any, row, more);
    }
  }

  /** A nested group, if it says something, is one more operand: in parentheses, negated or not. */
  lemma NestedAdds(pieces: seq<seq<Token>>, es: seq<Expr>, any: bool, values: seq<Value>, meaning: Row -> Option<Truth>,
                   text: seq<Token>, e: Option<Expr>, bound: seq<Value>, means: Row -> Option<Truth>, negated: bool)
                     returns (more: seq<Expr>)
    requires PiecesMean(pieces, es, any, values, meaning) && TextMeans(text, e, bound, means) && values <= bound
    ensures PiecesMean(With(pieces, text, if negated then [NotT] else []), more, any, bound,
                       row => Joined(any, meaning(row), Negated(means(row), negated)))
  {
    if e.None? {
      more := es;
      hide AllUnits, Total;
    } else {
      ParenthesesRead(text, e.value);
      assert [] + Parenthesized(text) == Parenthesized(text);
      var x := if negated then NotE(e.value) else e.value;
      var single := (row: Row) => var m := means(row); if m.None? then Unknown else if negated then Not(m.value)
          else m.value;
      hide Reads, UnitReads;
      forall row, m | bound <= m
        ensures Evaluate(x, row, m) == single(row) && Some(single(row)) == Negated(means(row), negated)
      {
        assert means(row) == Some(Evaluate(e.value, row, m));
      }
      forall row
        ensures Some(single(row)) == Negated(means(row), negated)
      {
        assert bound <= bound && means(row) == Some(Evaluate(e.value, row, bound));
      }
      PieceAdds(pieces, es, any, values, meaning, (if negated then [NotT] else []) + Parenthesized(text), x, bound,
        single);
      more := es + [x];
      MeaningSame(With(pieces, text, if negated then [NotT] else []), more, any, bound,
                  row => Joined(any, meaning(row), Some(single(row))),
                    row => Joined(any, meaning(row), Negated(means(row), negated)));
    }
  }

  function Negated(m: Option<Truth>, negated: bool): Option<Truth> {
    if m.Some? && negated then Some(Not(m.value)) else m
  }

  lemma MeaningSame(pieces: seq<seq<Token>>, es: seq<Expr>, any: bool, values: seq<Value>, a: Row -> Option<Truth>,
      b: Row -> Option<Truth>)
    requires PiecesMean(pieces, es, any, values, a) && forall row :: a(row) == b(row)
    ensures PiecesMean(pieces, es, any, values, b)
  {
    hide AllUnits, Total;
  }

  /** The own fields of a group: its predicates, then its likes in one operand. */
  lemma OwnMeans(conditions: seq<Condition>, values: seq<Value>, any: bool) returns (es: seq<Expr>)
    ensures values <= PrintedLevel(conditions, values).values
    ensures PiecesMean(WithLikes(PrintedLevel(conditions, values)), es, any, PrintedLevel(conditions, values).values,
        (row: Row) => Own(conditions, any, row))
  {
    var level := PrintedLevel(conditions, values);
    var predicates, likes := LevelIsRead(conditions, values, any);
    var first := (row: Row) => Level(conditions, row, false, any);
    var second := (row: Row) => Level(conditions, row, true, true);
    assert PiecesMean(level.predicates, predicates, any, level.values, first);
    assert PiecesMean(level.likes, likes, true, level.values, second);
    hide LevelReads;
    var e := JoinMeans(level.likes, likes, true, level.values, second);
    if likes == [] {
      es := predicates;
      assert level.likes == [];
      hide AllUnits, Total, Level;
      forall row
        ensures first(row) == Own(conditions, any, row)
      {
        assert second(row) == None;
      }
      MeaningSame(level.predicates, es, any, level.values, first, row => Own(conditions, any, row));
    } else {
      var piece := if |level.likes| == 1 then level.likes[0] else Parenthesized(Join(level.likes, OrT));
      LikesAreOne(level.likes, likes, e);
      var single := (row: Row) => var m := second(row); if m.None? then Unknown else m.value;
      hide AllUnits, Total, Level, Reads, UnitReads, Evaluate;
      forall row
        ensures Some(single(row)) == second(row)
      {
        assert level.values <= level.values && second(row) == Some(Evaluate(e.value, row, level.values));
      }
      PieceAdds(level.predicates, predicates, any, level.values, first, piece, e.value, level.values, single);
      es := predicates + [e.value];
      MeaningSame(level.predicates + [piece], es, any, level.values, row => Joined(any, first(row), Some(single(row))),
        row => Own(conditions, any, row));
    }
  }

  /** One like stands alone, several stand in parentheses. */
  lemma LikesAreOne(pieces: seq<seq<Token>>, es: seq<Expr>, e: Option<Expr>)
    requires AllUnits(pieces, es) && es != [] && e == Some(Chain(es, true))
    ensures UnitReads(if |pieces| == 1 then pieces[0] else Parenthesized(Join(pieces, OrT)), e.value)
  {
    JoinReads(pieces, es, true);
    if |pieces| > 1 {
      ParenthesesRead(Join(pieces, OrT), Chain(es, true));
    } else {
      assert UnitReads(pieces[0], es[0]);
    }
  }

  function Own(conditions: seq<Condition>, any: bool, row: Row): Option<Truth> {
    Joined(any, Level(conditions, row, false, any), Level(conditions, row, true, true))
  }

  /** What a nested group says, and what a missing one does. */
  function NestedMeans(f: Option<Filters>, any: bool, row: Row): Option<Truth> {
    if f.Some? then FilterMeans(f.value, any, row) else None
  }

  /** The text of a group and the parameters after it; a missing group prints nothing. */
  function NestedText(f: Option<Filters>, any: bool, values: seq<Value>): (seq<Token>, seq<Value>) {
    if f.Some? then Group(f.value, any, values) else ([], values)
  }

  lemma {:induction false} NestedReads(f: Option<Filters>, any: bool, values: seq<Value>) returns (e: Option<Expr>)
    ensures values <= NestedText(f, any, values).1
    ensures TextMeans(NestedText(f, any, values).0, e, NestedText(f, any, values).1,
        (row: Row) => NestedMeans(f, any, row))
    decreases f, 1
  {
    if f.None? {
      return None;
    }
    e := GroupReads(f.value, any, values);
    TextSame(Group(f.value, any, values).0, e, Group(f.value, any, values).1,
      (row: Row) => FilterMeans(f.value, any, row), (row: Row) => NestedMeans(f, any, row));
  }

  lemma TextSame(text: seq<Token>, e: Option<Expr>, values: seq<Value>, a: Row -> Option<Truth>,
      b: Row -> Option<Truth>)
    requires TextMeans(text, e, values, a) && forall row :: a(row) == b(row)
    ensures TextMeans(text, e, values, b)
  {
    hide Reads, Evaluate;
  }

  /**
   * The text printed for a filter, at any nesting, reads back with SQL's precedence as an expression
   * that is true, false or unknown of every row as the filter is, however many parameters the
   * statement binds before and after. A filter that says nothing prints nothing.
   */
  lemma {:induction false} GroupReads(f: Filters, any: bool, values: seq<Value>) returns (e: Option<Expr>)
    ensures values <= Group(f, any, values).1
    ensures TextMeans(Group(f, any, values).0, e, Group(f, any, values).1, (row: Row) => FilterMeans(f, any, row))
    decreases f, 0
  {
    var level := PrintedLevel(f.conditions, values);
    var own := OwnMeans(f.conditions, values, any);
    var (all, values1) := NestedText(f.all, false, level.values);
    var allE := NestedReads(f.all, false, level.values);
    var (anyOf, values2) := NestedText(f.any, true, values1);
    var anyE := NestedReads(f.any, true, values1);
    var (none, values3) := NestedText(f.none, false, values2);
    var noneE := NestedReads(f.none, false, values2);
    GroupIs(f, any, values);
    hide *;
    var mAll, mAny, mNone := (row: Row) => NestedMeans(f.all, false, row), (row: Row) => NestedMeans(f.any, true, row),
        (row: Row) => NestedMeans(f.none, false, row);
    var own' := (row: Row) => Own(f.conditions, any, row);
    e := NestMeans(WithLikes(level), own, any, level.values, own', all, allE, values1, mAll, anyOf, anyE, values2,
        mAny, none, noneE, values3, mNone);
    var combined := Combined(any, own', mAll, mAny, mNone);
    forall row
      ensures combined(row) == FilterMeans(f, any, row)
    {
      FilterIs(f, any, row);
      CombinedIs(any, own', mAll, mAny, mNone, row);
    }
    TextSame(Group(f, any, values).0, e, values3, combined, (row: Row) => FilterMeans(f, any, row));
  }

  lemma CombinedIs(any: bool, own: Row -> Option<Truth>, mAll: Row -> Option<Truth>, mAny: Row -> Option<Truth>,
      mNone: Row -> Option<Truth>, row: Row)
    ensures Combined(any, own, mAll, mAny, mNone)(row)
        == Joined(any, Joined(any, Joined(any, own(row), mAll(row)), mAny(row)), Negated(mNone(row), true))
  {
  }

  ghost function Combined(any: bool, own: Row -> Option<Truth>, mAll: Row -> Option<Truth>, mAny: Row -> Option<Truth>,
      mNone: Row -> Option<Truth>): Row -> Option<Truth> {
    (row: Row) => Joined(any, Joined(any, Joined(any, own(row), mAll(row)), mAny(row)), Negated(mNone(row), true))
  }

  /** The own operands of a group and its nested groups, one after the other. */
  lemma NestMeans(pieces: seq<seq<Token>>, es: seq<Expr>, any: bool, values: seq<Value>, own: Row -> Option<Truth>,
                  all: seq<Token>, allE: Option<Expr>, values1: seq<Value>, mAll: Row -> Option<Truth>,
                  anyOf: seq<Token>, anyE: Option<Expr>, values2: seq<Value>, mAny: Row -> Option<Truth>,
                  none: seq<Token>, noneE: Option<Expr>, values3: seq<Value>, mNone: Row -> Option<Truth>)
                    returns (e: Option<Expr>)
    requires PiecesMean(pieces, es, any, values, own) && values <= values1 <= values2 <= values3
    requires TextMeans(all, allE, values1, mAll) && TextMeans(anyOf, anyE, values2, mAny)
        && TextMeans(none, noneE, values3, mNone)
    ensures TextMeans(Join(With(With(With(pieces, all, []), anyOf, []), none, [NotT]), Separator(any)), e, values3,
        Combined(any, own, mAll, mAny, mNone))
  {
    hide TextMeans, PiecesMean, With, Join, Joined;
    var m1 := row => Joined(any, own(row), Negated(mAll(row), false));
    var m2 := row => Joined(any, m1(row), Negated(mAny(row), false));
    var m3 := row => Joined(any, m2(row), Negated(mNone(row), true));
    var es1 := NestedAdds(pieces, es, any, values, own, all, allE, values1, mAll, false);
    var es2 := NestedAdds(With(pieces, all, []), es1, any, values1, m1, anyOf, anyE, values2, mAny, false);
    var es3 := NestedAdds(With(With(pieces, all, []), anyOf, []), es2, any, values2, m2, none, noneE, values3, mNone,
        true);
    e := JoinMeans(With(With(With(pieces, all, []), anyOf, []), none, [NotT]), es3, any, values3, m3);
    forall row
      ensures m3(row) == Combined(any, own, mAll, mAny, mNone)(row)
    {
      assert m1(row) == Joined(any, own(row), mAll(row));
      assert m2(row) == Joined(any, m1(row), mAny(row));
    }
    TextSame(Join(With(With(With(pieces, all, []), anyOf, []), none, [NotT]), Separator(any)), e, values3, m3,
      Combined(any, own, mAll, mAny, mNone));
  }

  lemma FilterIs(f: Filters, any: bool, row: Row)
    ensures FilterMeans(f, any, row) ==
              Joined(any, Joined(any, Joined(any, Own(f.conditions, any, row), NestedMeans(f.all, false, row)),
                NestedMeans(f.any, true, row)),
                     Negated(NestedMeans(f.none, false, row), true))
  {
  }

  lemma GroupIs(f: Filters, any: bool, values: seq<Value>)
    ensures var level := PrintedLevel(f.conditions, values);
            var (all, values1) := NestedText(f.all, false, level.values);
            var (anyOf, values2) := NestedText(f.any, true, values1);
            var (none, values3) := NestedText(f.none, false, values2);
            Group(f, any, values)
              == (Join(With(With(With(WithLikes(level), all, []), anyOf, []), none, [NotT]), Separator(any)), values3)
  {
  }

  // --- What filters say ---

  /** A cell for which a test is true; a comparison with NULL never is. */
  ghost predicate Passes(test: Test, cell: Value, value: Value) {
    match test
    case Eq => cell != Null && cell == value
    case Ne => cell != value
    case Lt => cell != Null && value != Null && ValueOrder(cell, value) < 0
    case Lte => cell != Null && value != Null && ValueOrder(cell, value) <= 0
    case Gt => cell != Null && value != Null && ValueOrder(cell, value) > 0
    case Gte => cell != Null && value != Null && ValueOrder(cell, value) >= 0
    case In => cell != Null && value.Arr? && cell in value.items
    case Nin => cell == Null || (value.Arr? ==> Null !in value.items && cell !in value.items)
    case IsNull => cell == Null
    case NotNull => cell != Null
    case Like => cell.Str? && value.Str? && exists pre, post :: Fold(cell.s) == pre + Fold(value.s) + post
  }

  /** A cell for which a test is false; with NULL a comparison is not false either. */
  ghost predicate Fails(test: Test, cell: Value, value: Value) {
    match test
    case Eq => cell != Null && value != Null && cell != value
    case Ne => cell == value
    case Lt => cell != Null && value != Null && ValueOrder(cell, value) >= 0
    case Lte => cell != Null && value != Null && ValueOrder(cell, value) > 0
    case Gt => cell != Null && value != Null && ValueOrder(cell, value) <= 0
    case Gte => cell != Null && value != Null && ValueOrder(cell, value) < 0
    case In => !value.Arr? || value.items == [] || (cell != Null && Null !in value.items && cell !in value.items)
    case Nin => cell != Null && value.Arr? && cell in value.items
    case IsNull => cell != Null
    case NotNull => cell == Null
    case Like => cell != Null && value != Null && !Passes(Like, cell, value)
  }

  ghost predicate Says(t: Truth, passes: bool, fails: bool) {
    (t == True <==> passes) && (t == False <==> fails)
  }

  lemma {:induction false} AnyEquals(cell: Value, items: seq<Value>)
    ensures Says(EqualsAny(cell, items), cell != Null && cell in items,
        items == [] || (cell != Null && Null !in items && cell !in items))
    decreases |items|
  {
    if items != [] { AnyEquals(cell, items[1..]); }
  }

  lemma ContainsIs(text: Text, term: Text)
    ensures Contains(text, term) <==> exists pre, post :: text == pre + term + post
  {
    if k :| 0 <= k <= |text| && StartsWith(text[k..], term) {
      assert text == text[..k] + term + text[k..][|term|..];
    }
    if pre, post :| text == pre + term + post {
      assert text[|pre|..] == term + post;
      assert StartsWith(text[|pre|..], term);
    }
  }

  /** Every test is true, false or unknown of a cell as SQL has it. */
  lemma TestSays(test: Test, cell: Value, value: Value)
    ensures Says(Means(test, cell, value), Passes(test, cell, value), Fails(test, cell, value))
  {
    AnyEquals(cell, Items(value));
    if cell.Str? && value.Str? { ContainsIs(Fold(cell.s), Fold(value.s)); }
    hide EqualsAny, Contains, Fold, ValueOrder;
  }

  /** One letter but for its case. */
  predicate SameLetter(u: Unit, v: Unit) {
    u == v || (65 <= u <= 90 && v == u + 32) || (65 <= v <= 90 && u == v + 32)
  }

  /** ILIKE ignores the case of ASCII letters and nothing else. */
  lemma FoldedAlike(a: Text, b: Text)
    ensures Fold(a) == Fold(b) <==> |a| == |b| && forall i :: 0 <= i < |a| ==> SameLetter(a[i], b[i])
  {
    if Fold(a) == Fold(b) {
      forall i | 0 <= i < |a|
        ensures SameLetter(a[i], b[i])
      {
        assert Fold(a)[i] == LowerUnit(a[i]) && Fold(b)[i] == LowerUnit(b[i]);
      }
    }
  }

  /** The cell a condition is about; a column the row lacks is NULL. */
  ghost predicate Holding(row: Row, column: string, cell: Value) {
    cell == if column in row.cells then row.cells[column] else Null
  }

  /** Some condition of the level, a like or not, says `t`. */
  ghost predicate LevelSays(conditions: seq<Condition>, row: Row, likes: bool, t: Truth) {
    exists c <- conditions :: ConditionSays(c, row, likes, t)
  }

  ghost predicate ConditionSays(c: Condition, row: Row, likes: bool, t: Truth) {
    c.test.Some? && (c.test == Some(Like)) == likes
      && exists cell :: Holding(row, c.field, cell) && Says(t, Passes(c.test.value, cell, c.value),
          Fails(c.test.value, cell, c.value))
  }

  /** What is said together is true when all of it is, and false when some of it is. */
  ghost predicate AllSay(says: Truth -> bool, m: Option<Truth>) {
    (m.None? <==> !says(True) && !says(False) && !says(Unknown)) && (m == Some(False) <==> says(False))
      && (m == Some(True) <==> says(True) && !says(False) && !says(Unknown))
  }

  /** What is said in alternatives is true when some of it is, and false when all of it is. */
  ghost predicate SomeSay(says: Truth -> bool, m: Option<Truth>) {
    (m.None? <==> !says(True) && !says(False) && !says(Unknown)) && (m == Some(True) <==> says(True))
      && (m == Some(False) <==> says(False) && !says(True) && !says(Unknown))
  }

  ghost predicate Together(any: bool, says: Truth -> bool, m: Option<Truth>) {
    if any then SomeSay(says, m) else AllSay(says, m)
  }

  lemma JoinedSays(any: bool, a: Option<Truth>, b: Option<Truth>, first: Truth -> bool, both: Truth -> bool)
    requires Together(any, first, a) && forall t :: both(t) <==> first(t) || b == Some(t)
    ensures Together(any, both, Joined(any, a, b))
  {
    assert a.None? || a.value.True? || a.value.False? || a.value.Unknown?;
    assert b.None? || b.value.True? || b.value.False? || b.value.Unknown?;
    assert both(True) <==> first(True) || b == Some(True);
    assert both(False) <==> first(False) || b == Some(False);
    assert both(Unknown) <==> first(Unknown) || b == Some(Unknown);
  }

  /** The likes of a level together: alternatives of each other, whatever they are joined to. */
  ghost predicate LikesSay(conditions: seq<Condition>, row: Row, t: Truth) {
    SomeSay(u => LevelSays(conditions, row, true, u), Some(t))
  }

  predicate GroupSays(f: Option<Filters>, any: bool, row: Row, t: Truth) {
    f.Some? && FilterMeans(f.value, any, row) == Some(t)
  }

  predicate Opposite(t: Truth, u: Truth) {
    (t.True? && u.False?) || (t.False? && u.True?) || (t.Unknown? && u.Unknown?)
  }

  /** What a level says: its conditions, its likes in one, its `:and`, its `:or`, and the opposite of its `:not`. */
  ghost predicate FilterSaid(f: Filters, row: Row, t: Truth) {
    LevelSays(f.conditions, row, false, t) || LikesSay(f.conditions, row, t) || GroupSays(f.all, false, row, t)
      || GroupSays(f.any, true, row, t) || exists u :: GroupSays(f.none, false, row, u) && Opposite(u, t)
  }

  lemma ConditionMeansSays(c: Condition, row: Row, likes: bool, t: Truth)
    ensures ConditionSays(c, row, likes, t) <==>
              (if IsLike(c) == likes then ConditionMeans(c, row) else None) == Some(t)
  {
    if c.test.Some? {
      var cell := Keyset.Cell(row, c.field);
      TestSays(c.test.value, cell, c.value);
      assert Holding(row, c.field, cell);
    }
    hide Means, Passes, Fails;
  }

  lemma {:induction false} LevelIs(conditions: seq<Condition>, row: Row, likes: bool, any: bool)
    ensures Together(any, t => LevelSays(conditions, row, likes, t), Level(conditions, row, likes, any))
    decreases |conditions|
  {
    if conditions != [] {
      var init, last := conditions[..|conditions| - 1], conditions[|conditions| - 1];
      LevelIs(init, row, likes, any);
      var says := if IsLike(last) == likes then ConditionMeans(last, row) else None;
      assert conditions == init + [last];
      forall t
        ensures LevelSays(conditions, row, likes, t) <==> LevelSays(init, row, likes, t) || says == Some(t)
      {
        ConditionMeansSays(last, row, likes, t);
      }
      hide ConditionSays, ConditionMeans, Together, Joined;
      JoinedSays(any, Level(init, row, likes, any), says, t => LevelSays(init, row, likes, t),
        t => LevelSays(conditions, row, likes, t));
    } else {
      hide ConditionSays;
    }
  }

  /** Two readings of one predicate agree. */
  lemma SameSays(any: bool, a: Truth -> bool, b: Truth -> bool, m: Option<Truth>)
    requires Together(any, a, m) && forall t :: a(t) <==> b(t)
    ensures Together(any, b, m)
  {
    assert (a(True) <==> b(True)) && (a(False) <==> b(False)) && (a(Unknown) <==> b(Unknown));
  }

  lemma OwnSays(conditions: seq<Condition>, any: bool, row: Row)
    ensures Together(any, t => LevelSays(conditions, row, false, t) || LikesSay(conditions, row, t),
        Own(conditions, any, row))
  {
    var plain, likes := Level(conditions, row, false, any), Level(conditions, row, true, true);
    LevelIs(conditions, row, false, any);
    LevelIs(conditions, row, true, true);
    var liked := (u: Truth) => LevelSays(conditions, row, true, u);
    assert SomeSay(liked, likes);
    forall t
      ensures LikesSay(conditions, row, t) <==> likes == Some(t)
    {
      hide LevelSays;
      LikesAre(liked, likes, t);
    }
    hide LevelSays, LikesSay, Level, Joined, Together;
    JoinedSays(any, plain, likes, t => LevelSays(conditions, row, false, t),
      t => LevelSays(conditions, row, false, t) || LikesSay(conditions, row, t));
  }

  lemma LikesAre(says: Truth -> bool, m: Option<Truth>, t: Truth)
    requires SomeSay(says, m)
    ensures SomeSay(says, Some(t)) <==> m == Some(t)
  {
    assert t.True? || t.False? || t.Unknown?;
    assert m.None? || m.value.True? || m.value.False? || m.value.Unknown?;
  }

  lemma NestedSays(any: bool, a: Option<Truth>, says: Truth -> bool, f: Option<Filters>, inner: bool, row: Row)
    requires Together(any, says, a)
    ensures Together(any, t => says(t) || GroupSays(f, inner, row, t), Joined(any, a, NestedMeans(f, inner, row)))
  {
    hide FilterMeans;
    JoinedSays(any, a, NestedMeans(f, inner, row), says, t => says(t) || GroupSays(f, inner, row, t));
  }

  ghost predicate NoneSays(f: Option<Filters>, row: Row, t: Truth) {
    exists u :: GroupSays(f, false, row, u) && Opposite(u, t)
  }

  lemma NegatedSays(f: Option<Filters>, row: Row, t: Truth)
    ensures Negated(NestedMeans(f, false, row), true) == Some(t) <==> NoneSays(f, row, t)
  {
    if f.Some? {
      var m := FilterMeans(f.value, false, row);
      hide FilterMeans;
      if m.Some? && Opposite(m.value, t) { assert GroupSays(f, false, row, m.value); }
    }
  }

  /**
   * A filter is true of a row when it says something and all it says is true, false when some of it is
   * false, and unknown otherwise; in an `:or` it is true when some of it is and false when all of it is.
   */
  lemma FilterSays(f: Filters, any: bool, row: Row)
    ensures Together(any, t => FilterSaid(f, row, t), FilterMeans(f, any, row))
  {
    FilterIs(f, any, row);
    OwnSays(f.conditions, any, row);
    forall t
      ensures Negated(NestedMeans(f.none, false, row), true) == Some(t) <==> NoneSays(f.none, row, t)
    {
      NegatedSays(f.none, row, t);
    }
    var own := (t: Truth) => LevelSays(f.conditions, row, false, t) || LikesSay(f.conditions, row, t);
    var all := (t: Truth) => own(t) || GroupSays(f.all, false, row, t);
    var some := (t: Truth) => all(t) || GroupSays(f.any, true, row, t);
    var whole := (t: Truth) => some(t) || NoneSays(f.none, row, t);
    hide FilterMeans, LevelSays, LikesSay, GroupSays, Joined, Together, Own, NestedMeans, Negated;
    NestedSays(any, Own(f.conditions, any, row), own, f.all, false, row);
    var m1 := Joined(any, Own(f.conditions, any, row), NestedMeans(f.all, false, row));
    SameSays(any, t => own(t) || GroupSays(f.all, false, row, t), all, m1);
    NestedSays(any, m1, all, f.any, true, row);
    var m2 := Joined(any, m1, NestedMeans(f.any, true, row));
    SameSays(any, t => all(t) || GroupSays(f.any, true, row, t), some, m2);
    JoinedSays(any, m2, Negated(NestedMeans(f.none, false, row), true), some, whole);
    SameSays(any, whole, t => FilterSaid(f, row, t), FilterMeans(f, any, row));
  }

  // --- Parameters ---

  function Number(leaf: Leaf): seq<nat> {
    match leaf
    case NullTest => []
    case NotNullTest => []
    case Equals(n) => [n]
    case Distinct(n) => [n]
    case Less(n) => [n]
    case LessEq(n) => [n]
    case Greater(n) => [n]
    case GreaterEq(n) => [n]
    case AnyOf(n) => [n]
    case DistinctAll(n) => [n]
    case ILike(n) => [n]
  }

  /** The parameters a text refers to, from left to right. */
  function Numbers(tokens: seq<Token>): seq<nat> {
    if tokens == [] then [] else (if tokens[0].LeafT? then Number(tokens[0].leaf) else []) + Numbers(tokens[1..])
  }

  function AllNumbers(pieces: seq<seq<Token>>): seq<nat> {
    if pieces == [] then [] else Numbers(pieces[0]) + AllNumbers(pieces[1..])
  }

  lemma {:induction false} NumbersConcat(a: seq<Token>, b: seq<Token>)
    ensures Numbers(a + b) == Numbers(a) + Numbers(b)
    decreases |a|
  {
    if a == [] {
      assert a + b == b;
    } else {
      NumbersConcat(a[1..], b);
      assert (a + b)[1..] == a[1..] + b && (a + b)[0] == a[0];
    }
  }

  lemma {:induction false} AllNumbersConcat(a: seq<seq<Token>>, b: seq<seq<Token>>)
    ensures AllNumbers(a + b) == AllNumbers(a) + AllNumbers(b)
    decreases |a|
  {
    if a == [] {
      assert a + b == b;
    } else {
      AllNumbersConcat(a[1..], b);
      assert (a + b)[1..] == a[1..] + b && (a + b)[0] == a[0];
    }
  }

  lemma NumbersOfOne(token: Token)
    ensures Numbers([token]) == if token.LeafT? then Number(token.leaf) else []
  {
    assert Numbers([token][1..]) == [];
  }

  lemma {:induction false} NumbersTail(pieces: seq<seq<Token>>, separator: Token)
    requires !separator.LeafT?
    ensures Numbers(Tail(pieces, separator)) == AllNumbers(pieces)
    decreases |pieces|
  {
    if pieces != [] {
      NumbersTail(pieces[1..], separator);
      NumbersConcat([separator] + pieces[0], Tail(pieces[1..], separator));
      NumbersConcat([separator], pieces[0]);
      NumbersOfOne(separator);
    }
  }

  lemma NumbersJoin(pieces: seq<seq<Token>>, any: bool)
    ensures Numbers(Join(pieces, Separator(any))) == AllNumbers(pieces)
  {
    if pieces != [] {
      NumbersTail(pieces[1..], Separator(any));
      NumbersConcat(pieces[0], Tail(pieces[1..], Separator(any)));
    }
  }

  lemma NumbersParenthesized(tokens: seq<Token>)
    ensures Numbers(Parenthesized(tokens)) == Numbers(tokens)
  {
    NumbersConcat([Open] + tokens, [Close]);
    NumbersConcat([Open], tokens);
    NumbersOfOne(Open);
    NumbersOfOne(Close);
  }

  /** The parameters numbered from `lo + 1` to `hi`. */
  function Run(lo: nat, hi: nat): seq<nat>
    requires lo <= hi
  {
    seq(hi - lo, i requires 0 <= i < hi - lo => lo + 1 + i)
  }

  /** The pieces refer to every parameter bound since `lo`, each once. */
  ghost predicate UsesEach(pieces: seq<seq<Token>>, lo: nat, hi: nat) {
    lo <= hi && multiset(AllNumbers(pieces)) == multiset(Run(lo, hi))
  }

  lemma RunsJoin(lo: nat, mid: nat, hi: nat)
    requires lo <= mid <= hi
    ensures Run(lo, mid) + Run(mid, hi) == Run(lo, hi)
  {
  }

  lemma UsesMore(pieces: seq<seq<Token>>, lo: nat, mid: nat, piece: seq<Token>, hi: nat)
    requires UsesEach(pieces, lo, mid) && mid <= hi && multiset(Numbers(piece)) == multiset(Run(mid, hi))
    ensures UsesEach(pieces + [piece], lo, hi)
  {
    AllNumbersConcat(pieces, [piece]);
    assert [piece][1..] == [];
    assert AllNumbers([piece]) == Numbers(piece);
    RunsJoin(lo, mid, hi);
  }

  lemma PrintedUses(c: Condition, values: seq<Value>)
    requires c.test.Some?
    ensures |values| <= |Printed(c, values).1|
    ensures Numbers(Printed(c, values).0) == Run(|values|, |Printed(c, values).1|)
  {
    var leaf := LeafT(c.field, LeafOf(c.test.value, |values| + 1));
    NumbersOfOne(leaf);
    if c.test == Some(Nin) {
      var tokens := [Open, leaf, OrT, LeafT(c.field, NullTest), Close];
      assert tokens == Parenthesized([leaf] + ([OrT] + [LeafT(c.field, NullTest)]));
      NumbersParenthesized([leaf] + ([OrT] + [LeafT(c.field, NullTest)]));
      NumbersConcat([leaf], [OrT] + [LeafT(c.field, NullTest)]);
      NumbersConcat([OrT], [LeafT(c.field, NullTest)]);
      NumbersOfOne(OrT);
      NumbersOfOne(LeafT(c.field, NullTest));
    }
  }

  lemma SameUses(a: seq<seq<Token>>, b: seq<seq<Token>>, piece: seq<Token>, lo: nat, hi: nat)
    requires UsesEach(a + b + [piece], lo, hi)
    ensures UsesEach(a + [piece] + b, lo, hi) && UsesEach(a + (b + [piece]), lo, hi)
  {
    assert a + (b + [piece]) == a + b + [piece];
    AllNumbersConcat(a + b, [piece]);
    AllNumbersConcat(a, b);
    AllNumbersConcat(a + [piece], b);
    AllNumbersConcat(a, [piece]);
    hide AllNumbers, Run;
  }

  lemma {:induction false} LevelUses(conditions: seq<Condition>, values: seq<Value>)
    ensures var level := PrintedLevel(conditions, values);
            UsesEach(level.predicates + level.likes, |values|, |level.values|)
    decreases |conditions|
  {
    if conditions != [] {
      var init, last := conditions[..|conditions| - 1], conditions[|conditions| - 1];
      LevelUses(init, values);
      if last.test.Some? {
        var before := PrintedLevel(init, values);
        PrintedUses(last, before.values);
        var (tokens, bound) := Printed(last, before.values);
        hide Printed, AllNumbers, Run, Numbers;
        UsesMore(before.predicates + before.likes, |values|, |before.values|, tokens, |bound|);
        hide UsesEach;
        SameUses(before.predicates, before.likes, tokens, |values|, |bound|);
      }
    } else {
      assert multiset(AllNumbers([])) == multiset(Run(|values|, |values|));
    }
  }

  lemma LikesUse(level: Listing)
    ensures AllNumbers(WithLikes(level)) == AllNumbers(level.predicates + level.likes)
  {
    AllNumbersConcat(level.predicates, level.likes);
    if level.likes == [] {
      assert AllNumbers(level.likes) == [];
    } else {
      var piece := if |level.likes| == 1 then level.likes[0] else Parenthesized(Join(level.likes, OrT));
      AllNumbersConcat(level.predicates, [piece]);
      assert [piece][1..] == [];
      if |level.likes| == 1 {
        assert level.likes == [piece];
      } else {
        NumbersParenthesized(Join(level.likes, OrT));
        NumbersJoin(level.likes, true);
      }
    }
  }

  lemma WithUses(pieces: seq<seq<Token>>, lo: nat, mid: nat, text: seq<Token>, hi: nat, negated: bool)
    requires UsesEach(pieces, lo, mid) && mid <= hi && multiset(Numbers(text)) == multiset(Run(mid, hi))
    ensures UsesEach(With(pieces, text, if negated then [NotT] else []), lo, hi)
  {
    if text == [] {
      assert |multiset(Run(mid, hi))| == hi - mid;
      assert |multiset(Numbers(text))| == 0;
    } else {
      NumbersParenthesized(text);
      assert [] + Parenthesized(text) == Parenthesized(text);
      NumbersConcat([NotT], Parenthesized(text));
      NumbersOfOne(NotT);
      UsesMore(pieces, lo, mid, (if negated then [NotT] else []) + Parenthesized(text), hi);
    }
  }

  lemma {:induction false} NestedUses(f: Option<Filters>, any: bool, values: seq<Value>)
    ensures var (text, bound) := NestedText(f, any, values);
            |values| <= |bound| && multiset(Numbers(text)) == multiset(Run(|values|, |bound|))
    decreases f, 1
  {
    if f.Some? { GroupUses(f.value, any, values); }
  }

  /** Every parameter a group binds stands in its text, exactly once: none is left over and none is missing. */
  lemma {:induction false} GroupUses(f: Filters, any: bool, values: seq<Value>)
    ensures |values| <= |Group(f, any, values).1|
    ensures multiset(Numbers(Group(f, any, values).0)) == multiset(Run(|values|, |Group(f, any, values).1|))
    decreases f, 0
  {
    var level := PrintedLevel(f.conditions, values);
    LevelUses(f.conditions, values);
    LikesUse(level);
    var (all, values1) := NestedText(f.all, false, level.values);
    NestedUses(f.all, false, level.values);
    var (anyOf, values2) := NestedText(f.any, true, values1);
    NestedUses(f.any, true, values1);
    var (none, values3) := NestedText(f.none, false, values2);
    NestedUses(f.none, false, values2);
    GroupIs(f, any, values);
    hide Group, NestedText, PrintedLevel, WithLikes, With, Numbers, AllNumbers, Run, Join;
    WithUses(WithLikes(level), |values|, |level.values|, all, |values1|, false);
    WithUses(With(WithLikes(level), all, []), |values|, |values1|, anyOf, |values2|, false);
    WithUses(With(With(WithLikes(level), all, []), anyOf, []), |values|, |values2|, none, |values3|, true);
    NumbersJoin(With(With(With(WithLikes(level), all, []), anyOf, []), none, [NotT]), any);
  }

  // --- Patterns ---

  /** What a pattern is made of: `%`, `_`, or one character, written with a backslash where it needs one. */
  datatype Piece = AnyText | AnyUnit | Exactly(u: Unit)

  function Written(pieces: seq<Piece>): Text {
    if pieces == [] then []
    else
      (match pieces[0]
       case AnyText => [37]
       case AnyUnit => [95]
       case Exactly(u) => if u in {37, 95, 92} then [92, u] else [u]) + Written(pieces[1..])
  }

  predicate PieceFits(piece: Piece, part: Text) {
    match piece
    case AnyText => true
    case AnyUnit => |part| == 1
    case Exactly(u) => part == [u]
  }

  /** The text falls into parts that fit the pieces one by one. */
  ghost predicate Divides(pieces: seq<Piece>, text: Text) {
    if pieces == [] then text == []
    else exists k :: 0 <= k <= |text| && PieceFits(pieces[0], text[..k]) && Divides(pieces[1..], text[k..])
  }

  lemma OneUnit(pieces: seq<Piece>, text: Text)
    requires pieces != [] && !pieces[0].AnyText?
    ensures Divides(pieces, text) <==> text != [] && PieceFits(pieces[0], text[..1]) && Divides(pieces[1..], text[1..])
  {
  }

  /** A pattern matches the texts that fall into parts fitting its pieces: any text, any character, that character. */
  lemma {:induction false} PatternMatches(pieces: seq<Piece>, text: Text)
    ensures Matches(Written(pieces), text) <==> Divides(pieces, text)
    decreases |pieces|, |text|
  {
    if pieces != [] {
      var rest := Written(pieces[1..]);
      if pieces[0].AnyText? {
        PercentSkips(rest, text);
        forall k | 0 <= k <= |text|
          ensures Matches(rest, text[k..]) <==> Divides(pieces[1..], text[k..])
        {
          PatternMatches(pieces[1..], text[k..]);
        }
        assert Written(pieces) == [PERCENT] + rest;
        hide Matches, Written;
      } else {
        OneUnit(pieces, text);
        if text != [] { PatternMatches(pieces[1..], text[1..]); }
        WrittenUnit(pieces, text);
        hide Matches, Written, Divides;
      }
    }
  }

  lemma WrittenUnit(pieces: seq<Piece>, text: Text)
    requires pieces != [] && !pieces[0].AnyText?
    ensures Matches(Written(pieces), text) <==>
              text != [] && PieceFits(pieces[0], text[..1]) && Matches(Written(pieces[1..]), text[1..])
  {
    var rest := Written(pieces[1..]);
    if pieces[0].AnyUnit? {
      assert Written(pieces) == [UNDERSCORE] + rest && ([UNDERSCORE] + rest)[1..] == rest;
    } else {
      var u := pieces[0].u;
      if u in {PERCENT, UNDERSCORE, BACKSLASH} {
        assert Written(pieces) == [BACKSLASH, u] + rest && ([BACKSLASH, u] + rest)[2..] == rest;
      } else {
        assert Written(pieces) == [u] + rest && ([u] + rest)[1..] == rest;
      }
      if text != [] { assert text[..1] == [text[0]]; }
    }
  }
}
