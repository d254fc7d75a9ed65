/**
 * Keyset paging in SQL: the OR-of-AND predicate of a cursor, the windows and counts Postgres and D1
 * answer with, and the walks that follow them. packages/postgres/src/PostgresQuery.ts,
 * packages/postgres/src/Sql.ts and packages/d1/src/D1Query.ts.
 *
 * A row holds a value for each of its columns; `=` and `<` are those of one total order on values, and a
 * comparison with NULL is never true.
 */
module Keyset {
  import opened Wrappers
  import opened Documents
  import opened Lists

  datatype Row = Row(cells: map<string, Value>)

  datatype Sort = Sort(column: string, ascending: bool)

  datatype Side = After | Before

  datatype Op = Eq | Lt | Gt

  /** `column op $param`; parameters are numbered from 1. */
  datatype Condition = Condition(column: string, op: Op, param: nat)

  /** The predicate a cursor compiles to: some branch holds in all its conditions. */
  type Branch = seq<Condition>

  function Cell(row: Row, column: string): Value {
    if column in row.cells then row.cells[column] else Null
  }

  // --- What the predicate means ---

  predicate Compares(op: Op, a: Value, b: Value) {
    a != Null && b != Null &&
    match op
    case Eq => ValueOrder(a, b) == 0
    case Lt => ValueOrder(a, b) < 0
    case Gt => ValueOrder(a, b) > 0
  }

  predicate Holds(c: Condition, row: Row, values: seq<Value>) {
    1 <= c.param <= |values| && Compares(c.op, Cell(row, c.column), values[c.param - 1])
  }

  predicate BranchHolds(branch: Branch, row: Row, values: seq<Value>) {
    forall c <- branch :: Holds(c, row, values)
  }

  predicate AnyHolds(branches: seq<Branch>, row: Row, values: seq<Value>) {
    exists b <- branches :: BranchHolds(b, row, values)
  }

  // --- The order it stands for ---

  function CellOrder(sort: Sort, a: Row, b: Row): int {
    var order := ValueOrder(Cell(a, sort.column), Cell(b, sort.column));
    if sort.ascending then order else -order
  }

  /** The mixed-direction lexicographic order of ORDER BY. */
  function RowOrder(sorts: seq<Sort>, a: Row, b: Row): int {
    if sorts == [] then 0
    else if CellOrder(sorts[0], a, b) != 0 then CellOrder(sorts[0], a, b)
    else RowOrder(sorts[1..], a, b)
  }

  predicate Keyed(sorts: seq<Sort>, row: Row) {
    forall s <- sorts :: Cell(row, s.column) != Null
  }

  predicate Sorts(sorts: seq<Sort>, row: Row, cursor: Row, side: Side) {
    if side.After? then RowOrder(sorts, row, cursor) > 0 else RowOrder(sorts, row, cursor) < 0
  }

  function Pivot(sort: Sort, side: Side): Op {
    if side.After? == sort.ascending then Gt else Lt
  }

  lemma {:induction false} RowOrderFlips(sorts: seq<Sort>, a: Row, b: Row)
    ensures RowOrder(sorts, a, b) == -RowOrder(sorts, b, a)
    decreases |sorts|
  {
    if sorts != [] {
      ValueOrderTotal(Cell(a, sorts[0].column), Cell(b, sorts[0].column));
      RowOrderFlips(sorts[1..], a, b);
    }
  }

  lemma {:induction false} RowOrderTransitive(sorts: seq<Sort>, a: Row, b: Row, c: Row)
    requires RowOrder(sorts, a, b) <= 0 && RowOrder(sorts, b, c) <= 0
    ensures RowOrder(sorts, a, c) <= 0
    ensures RowOrder(sorts, a, b) < 0 || RowOrder(sorts, b, c) < 0 ==> RowOrder(sorts, a, c) < 0
    decreases |sorts|
  {
    if sorts != [] {
      var s := sorts[0];
      var x, y, z := Cell(a, s.column), Cell(b, s.column), Cell(c, s.column);
      ValueOrderTotal(x, y);
      ValueOrderTotal(y, z);
      ValueOrderTotal(x, z);
      if CellOrder(s, a, b) != 0 && CellOrder(s, b, c) != 0 {
        if s.ascending {
          ValueOrderTransitive(x, y, z);
        } else {
          ValueOrderTotal(y, x);
          ValueOrderTotal(z, y);
          ValueOrderTotal(z, x);
          ValueOrderTransitive(z, y, x);
        }
      } else if CellOrder(s, a, b) == 0 && CellOrder(s, b, c) == 0 {
        RowOrderTransitive(sorts[1..], a, b, c);
      }
    }
  }

  /** The first `i` columns of the two rows agree. */
  predicate AgreeTo(sorts: seq<Sort>, a: Row, b: Row, i: nat)
    requires i <= |sorts|
  {
    forall j :: 0 <= j < i ==> Cell(a, sorts[j].column) == Cell(b, sorts[j].column)
  }

  /** Branch `i` of the predicate: agree on the columns before, differ the right way on this one. */
  predicate Differs(sorts: seq<Sort>, row: Row, cursor: Row, side: Side, i: nat)
    requires i < |sorts|
  {
    AgreeTo(sorts, row, cursor, i)
      && Compares(Pivot(sorts[i], side), Cell(row, sorts[i].column), Cell(cursor, sorts[i].column))
  }

  /** Some branch fits exactly when the row sorts on that side of the cursor. */
  lemma {:induction false} SomeBranchFits(sorts: seq<Sort>, row: Row, cursor: Row, side: Side)
    requires Keyed(sorts, row) && Keyed(sorts, cursor)
    ensures Sorts(sorts, row, cursor, side) <==> exists i :: 0 <= i < |sorts| && Differs(sorts, row, cursor, side, i)
    decreases |sorts|
  {
    if sorts != [] {
      var s, rest := sorts[0], sorts[1..];
      SomeBranchFits(rest, row, cursor, side);
      ValueOrderTotal(Cell(row, s.column), Cell(cursor, s.column));
      assert s in sorts;
      if CellOrder(s, row, cursor) != 0 {
        assert Sorts(sorts, row, cursor, side) <==> Differs(sorts, row, cursor, side, 0);
        assert forall i :: 0 < i < |sorts| ==> !AgreeTo(sorts, row, cursor, i);
      } else {
        assert !Differs(sorts, row, cursor, side, 0);
        forall i | 0 <= i < |rest|
          ensures Differs(rest, row, cursor, side, i) <==> Differs(sorts, row, cursor, side, i + 1)
        {
          AgreeShifts(sorts, row, cursor, i);
        }
        if i :| 0 <= i < |sorts| && Differs(sorts, row, cursor, side, i) {
          assert Differs(rest, row, cursor, side, i - 1);
        }
      }
    }
  }

  lemma AgreeShifts(sorts: seq<Sort>, a: Row, b: Row, i: nat)
    requires i < |sorts| && Cell(a, sorts[0].column) == Cell(b, sorts[0].column)
    ensures AgreeTo(sorts[1..], a, b, i) <==> AgreeTo(sorts, a, b, i + 1)
  {
    forall j | 0 < j < i + 1
      ensures sorts[j] == sorts[1..][j - 1]
    {
    }
  }

  /** `id` is the last sort column and unique, so no two rows sort alike. */
  lemma TiesAreBroken(sorts: seq<Sort>, a: Row, b: Row)
    requires sorts != [] && Cell(a, sorts[|sorts| - 1].column) != Cell(b, sorts[|sorts| - 1].column)
    ensures RowOrder(sorts, a, b) != 0
  {
    EqualRows(sorts, a, b);
  }

  // --- Compiling a cursor ---

  /** Branch `i` as SQL evaluates it: NULL never compares. */
  predicate Fits(sorts: seq<Sort>, row: Row, cursor: Row, side: Side, i: nat)
    requires i < |sorts|
  {
    && (forall j :: 0 <= j < i ==> Compares(Eq, Cell(row, sorts[j].column), Cell(cursor, sorts[j].column)))
    && Compares(Pivot(sorts[i], side), Cell(row, sorts[i].column), Cell(cursor, sorts[i].column))
  }

  /** The keyset as SQL evaluates it. */
  predicate Selected(sorts: seq<Sort>, row: Row, cursor: Row, side: Side) {
    exists i :: 0 <= i < |sorts| && Fits(sorts, row, cursor, side, i)
  }

  /** The two rows differ, and neither has a NULL up to the first column where they do. */
  predicate Decided(sorts: seq<Sort>, row: Row, cursor: Row) {
    if sorts == [] then false
    else
      var a, b := Cell(row, sorts[0].column), Cell(cursor, sorts[0].column);
      a != Null && b != Null && (a != b || Decided(sorts[1..], row, cursor))
  }

  /** Whatever is NULL, the keyset selects exactly the rows on its side of which that is decided before any NULL. */
  lemma {:induction false} SelectedExactly(sorts: seq<Sort>, row: Row, cursor: Row, side: Side)
    ensures Selected(sorts, row, cursor, side) <==> Decided(sorts, row, cursor) && Sorts(sorts, row, cursor, side)
    decreases |sorts|
  {
    if sorts != [] {
      var a, b := Cell(row, sorts[0].column), Cell(cursor, sorts[0].column);
      SelectedExactly(sorts[1..], row, cursor, side);
      ValueOrderTotal(a, b);
      SelectedFurther(sorts, row, cursor, side);
    }
  }

  lemma SelectedFurther(sorts: seq<Sort>, row: Row, cursor: Row, side: Side)
    requires sorts != []
    ensures var a, b := Cell(row, sorts[0].column), Cell(cursor, sorts[0].column);
            Selected(sorts, row, cursor, side) <==>
              Compares(Pivot(sorts[0], side), a, b) || (Compares(Eq, a, b) && Selected(sorts[1..], row, cursor, side))
  {
    var rest := sorts[1..];
    forall i | 0 <= i < |rest|
      ensures Fits(sorts, row, cursor, side, i + 1) <==>
          Compares(Eq, Cell(row, sorts[0].column), Cell(cursor, sorts[0].column)) && Fits(rest, row, cursor, side, i)
    {
      FitsFurther(sorts, row, cursor, side, i);
    }
    assert Fits(sorts, row, cursor, side, 0) <==>
        Compares(Pivot(sorts[0], side), Cell(row, sorts[0].column), Cell(cursor, sorts[0].column));
    hide Fits, Compares;
    if i :| 0 <= i < |sorts| && Fits(sorts, row, cursor, side, i) {
      assert i > 0 ==> Fits(rest, row, cursor, side, i - 1);
    }
    if i :| 0 <= i < |rest| && Fits(rest, row, cursor, side, i) {
      assert Fits(sorts, row, cursor, side, i + 1) <==>
          Compares(Eq, Cell(row, sorts[0].column), Cell(cursor, sorts[0].column)) && Fits(rest, row, cursor, side, i);
    }
  }

  lemma FitsFurther(sorts: seq<Sort>, row: Row, cursor: Row, side: Side, i: nat)
    requires i + 1 < |sorts|
    ensures Fits(sorts, row, cursor, side, i + 1) <==>
        Compares(Eq, Cell(row, sorts[0].column), Cell(cursor, sorts[0].column))
          && Fits(sorts[1..], row, cursor, side, i)
  {
    var rest := sorts[1..];
    hide Compares;
    assert forall j :: 0 <= j < i ==> rest[j] == sorts[j + 1];
    assert forall j :: 0 < j < i + 1 ==> sorts[j] == rest[j - 1];
  }

  /** On rows and cursors without NULLs the keyset selects exactly the rows that sort on its side. */
  lemma SelectedSorts(sorts: seq<Sort>, row: Row, cursor: Row, side: Side)
    requires Keyed(sorts, row) && Keyed(sorts, cursor)
    ensures Selected(sorts, row, cursor, side) <==> Sorts(sorts, row, cursor, side)
  {
    SelectedExactly(sorts, row, cursor, side);
    KeyedDecided(sorts, row, cursor);
  }

  lemma {:induction false} KeyedDecided(sorts: seq<Sort>, row: Row, cursor: Row)
    requires Keyed(sorts, row) && Keyed(sorts, cursor)
    ensures RowOrder(sorts, row, cursor) != 0 ==> Decided(sorts, row, cursor)
    decreases |sorts|
  {
    if sorts != [] {
      assert sorts[0] in sorts;
      ValueOrderTotal(Cell(row, sorts[0].column), Cell(cursor, sorts[0].column));
      KeyedDecided(sorts[1..], row, cursor);
    }
  }

  /**
   * A row whose first NULL is in sort column `k` is on neither side of a cursor without NULLs exactly when the
   * two agree on every column before `k`; otherwise it is on the side where it sorts.
   */
  lemma {:induction false} NullVanishes(sorts: seq<Sort>, row: Row, cursor: Row, k: nat)
    requires k < |sorts| && Keyed(sorts, cursor) && Keyed(sorts[..k], row) && Cell(row, sorts[k].column) == Null
    ensures !Selected(sorts, row, cursor, After) && !Selected(sorts, row, cursor, Before) <==>
        AgreeTo(sorts, row, cursor, k)
    ensures !AgreeTo(sorts, row, cursor, k) ==> forall side: Side ::
        Selected(sorts, row, cursor, side) <==> Sorts(sorts, row, cursor, side)
  {
    DecidedBefore(sorts, row, cursor, k);
    if Decided(sorts, row, cursor) { DecidedDiffer(sorts, row, cursor); }
    forall side: Side
      ensures Selected(sorts, row, cursor, side) <==> Decided(sorts, row, cursor) && Sorts(sorts, row, cursor, side)
    {
      SelectedExactly(sorts, row, cursor, side);
    }
    hide Selected, Decided, RowOrder;
  }

  lemma {:induction false} DecidedDiffer(sorts: seq<Sort>, row: Row, cursor: Row)
    requires Decided(sorts, row, cursor)
    ensures RowOrder(sorts, row, cursor) != 0
    decreases |sorts|
  {
    ValueOrderTotal(Cell(row, sorts[0].column), Cell(cursor, sorts[0].column));
    if Cell(row, sorts[0].column) == Cell(cursor, sorts[0].column) { DecidedDiffer(sorts[1..], row, cursor); }
  }

  lemma {:induction false} DecidedBefore(sorts: seq<Sort>, row: Row, cursor: Row, k: nat)
    requires k < |sorts| && Keyed(sorts, cursor) && Keyed(sorts[..k], row) && Cell(row, sorts[k].column) == Null
    ensures Decided(sorts, row, cursor) <==> !AgreeTo(sorts, row, cursor, k)
    decreases |sorts|
  {
    assert sorts[0] in sorts;
    if k > 0 {
      assert sorts[0] in sorts[..k] && sorts[1..][..k - 1] == sorts[..k][1..];
      DecidedBefore(sorts[1..], row, cursor, k - 1);
      if Cell(row, sorts[0].column) == Cell(cursor, sorts[0].column) { AgreeShifts(sorts, row, cursor, k - 1); }
    }
  }

  /** `branch` is the conjunction for pivot `i`, its parameters bound in `values`. */
  ghost predicate BranchIs(branch: Branch, sorts: seq<Sort>, cursor: Row, side: Side, i: nat, values: seq<Value>)
    requires i < |sorts|
  {
    && |branch| == i + 1
    && (forall j :: 0 <= j <= i ==> ConditionIs(branch[j], sorts, cursor, side, i, j, values))
  }

  ghost predicate ConditionIs(c: Condition, sorts: seq<Sort>, cursor: Row, side: Side, i: nat, j: nat,
      values: seq<Value>)
    requires j <= i < |sorts|
  {
    && c.column == sorts[j].column && c.op == (if j < i then Eq else Pivot(sorts[i], side))
    && 1 <= c.param <= |values| && values[c.param - 1] == Cell(cursor, sorts[j].column)
  }

  lemma BranchMeans(branch: Branch, sorts: seq<Sort>, cursor: Row, side: Side, i: nat, values: seq<Value>, row: Row)
    requires i < |sorts| && BranchIs(branch, sorts, cursor, side, i, values)
    ensures BranchHolds(branch, row, values) <==> Fits(sorts, row, cursor, side, i)
  {
    forall j | 0 <= j <= i
      ensures Holds(branch[j], row, values) <==>
          Compares(branch[j].op, Cell(row, sorts[j].column), Cell(cursor, sorts[j].column))
    {
      assert ConditionIs(branch[j], sorts, cursor, side, i, j, values);
    }
    if BranchHolds(branch, row, values) {
      assert forall j :: 0 <= j <= i ==> branch[j] in branch;
    }
    hide Compares;
  }

  /** The parameters of one statement. */
  class Sql {
    var values: seq<Value>

    constructor ()
      ensures values == []
    {
      values := [];
    }

    method Param(value: Value) returns (number: nat)
      modifies this
      ensures values == old(values) + [value] && number == |values|
    {
      values := values + [value];
      return |values|;
    }
  }

  /**
   * Postgres: pin the columns before the pivot with `=`, compare the pivot. Whatever the statement
   * bound before, the predicate selects exactly the rows on that side of the cursor.
   */
  method PostgresKeyset(sql: Sql, sorts: seq<Sort>, cursor: Row, side: Side) returns (branches: seq<Branch>)
    modifies sql
    ensures old(sql.values) <= sql.values
    ensures forall row :: AnyHolds(branches, row, sql.values) <==> Selected(sorts, row, cursor, side)
    ensures Bound(branches, sql.values)
  {
    branches := [];
    var i := 0;
    while i < |sorts|
      invariant 0 <= i <= |sorts| && |branches| == i && old(sql.values) <= sql.values
      invariant forall k :: 0 <= k < i ==> BranchIs(branches[k], sorts, cursor, side, k, sql.values)
    {
      var conj: Branch := [];
      ghost var before := sql.values;
      var j := 0;
      while j < i
        invariant 0 <= j <= i && |conj| == j && before <= sql.values
        invariant forall k :: 0 <= k < j ==> ConditionIs(conj[k], sorts, cursor, side, i, k, sql.values)
      {
        var number := sql.Param(Cell(cursor, sorts[j].column));
        conj := conj + [Condition(sorts[j].column, Eq, number)];
        j := j + 1;
      }
      var number := sql.Param(Cell(cursor, sorts[i].column));
      conj := conj + [Condition(sorts[i].column, Pivot(sorts[i], side), number)];
      branches := branches + [conj];
      i := i + 1;
    }
    BranchesMean(branches, sorts, cursor, side, sql.values);
    BranchesBound(branches, sorts, cursor, side, sql.values);
  }

  /** Every placeholder has its value. */
  ghost predicate Bound(branches: seq<Branch>, values: seq<Value>) {
    forall b <- branches, c <- b :: 1 <= c.param <= |values|
  }

  lemma BranchesBound(branches: seq<Branch>, sorts: seq<Sort>, cursor: Row, side: Side, values: seq<Value>)
    requires |branches| == |sorts| && forall k :: 0 <= k < |sorts| ==>
        BranchIs(branches[k], sorts, cursor, side, k, values)
    ensures Bound(branches, values)
  {
    forall b, c | b in branches && c in b
      ensures 1 <= c.param <= |values|
    {
      var k :| 0 <= k < |branches| && branches[k] == b;
      var j :| 0 <= j < |b| && b[j] == c;
      assert ConditionIs(b[j], sorts, cursor, side, k, j, values);
    }
  }

  /** Binding more parameters changes no predicate bound before. */
  lemma BoundStays(branches: seq<Branch>, values: seq<Value>, more: seq<Value>, row: Row)
    requires Bound(branches, values) && values <= more
    ensures AnyHolds(branches, row, values) <==> AnyHolds(branches, row, more)
  {
    forall b | b in branches
      ensures BranchHolds(b, row, values) <==> BranchHolds(b, row, more)
    {
      assert forall c <- b :: Holds(c, row, values) <==> Holds(c, row, more);
    }
  }

  lemma BranchesMean(branches: seq<Branch>, sorts: seq<Sort>, cursor: Row, side: Side, values: seq<Value>)
    requires |branches| == |sorts| && forall k :: 0 <= k < |sorts| ==>
        BranchIs(branches[k], sorts, cursor, side, k, values)
    ensures forall row :: AnyHolds(branches, row, values) <==> Selected(sorts, row, cursor, side)
  {
    forall row
      ensures AnyHolds(branches, row, values) <==> Selected(sorts, row, cursor, side)
    {
      forall k | 0 <= k < |sorts|
        ensures BranchHolds(branches[k], row, values) <==> Fits(sorts, row, cursor, side, k)
      {
        BranchMeans(branches[k], sorts, cursor, side, k, values, row);
      }
      hide BranchHolds, Fits, BranchIs;
      if AnyHolds(branches, row, values) {
        var b :| b in branches && BranchHolds(b, row, values);
        var k :| 0 <= k < |branches| && branches[k] == b;
        assert Fits(sorts, row, cursor, side, k);
      }
    }
  }

  /**
   * D1: the same predicate over positional parameters, without the branches whose cursor value is
   * missing. With none left there is no predicate at all.
   */
  method CursorCondition(sorts: seq<Sort>, cursor: Row, forward: bool)
      returns (branches: seq<Branch>, params: seq<Value>)
    ensures forall row :: AnyHolds(branches, row, params) <==>
        Selected(sorts, row, cursor, if forward then After else Before)
    ensures branches == [] <==> forall s <- sorts :: Cell(cursor, s.column) == Null
  {
    var side := if forward then After else Before;
    branches, params := [], [];
    ghost var pivots: seq<nat> := [];
    var i := 0;
    while i < |sorts|
      invariant 0 <= i <= |sorts| && |branches| == |pivots|
      invariant forall k :: 0 <= k < |pivots| ==>
          pivots[k] < i && BranchIs(branches[k], sorts, cursor, side, pivots[k], params)
      invariant forall k :: 0 <= k < i ==> k in pivots || Cell(cursor, sorts[k].column) == Null
      invariant forall k <- pivots :: k < i && Cell(cursor, sorts[k].column) != Null
    {
      if Cell(cursor, sorts[i].column) != Null {
        var op := if (if forward then sorts[i].ascending else !sorts[i].ascending) then Gt else Lt;
        var branch := Positional(sorts, i, op, |params|);
        branches := branches + [branch];
        params := params + Cells(sorts[..i], cursor) + [Cell(cursor, sorts[i].column)];
        pivots := pivots + [i];
        PositionalIs(branch, sorts, cursor, side, i, params, |params| - i - 1);
      }
      i := i + 1;
    }
    NullBranchesFail(branches, pivots, sorts, cursor, side, params);
    if branches != [] {
      assert pivots[0] in pivots && sorts[pivots[0]] in sorts;
    }
    assert forall k :: 0 <= k < |sorts| && branches == [] ==> Cell(cursor, sorts[k].column) == Null;
  }

  function Cells(sorts: seq<Sort>, row: Row): (cells: seq<Value>)
    ensures |cells| == |sorts|
  {
    seq(|sorts|, i requires 0 <= i < |sorts| => Cell(row, sorts[i].column))
  }

  /** A branch whose placeholders follow the `bound` parameters before it. */
  function Positional(sorts: seq<Sort>, i: nat, op: Op, bound: nat): Branch
    requires i < |sorts|
  {
    seq(i, j requires 0 <= j < i => Condition(sorts[j].column, Eq, bound + j + 1))
      + [Condition(sorts[i].column, op, bound + i + 1)]
  }

  lemma PositionalIs(branch: Branch, sorts: seq<Sort>, cursor: Row, side: Side, i: nat, params: seq<Value>, bound: nat)
    requires i < |sorts| && branch == Positional(sorts, i, Pivot(sorts[i], side), bound)
    requires |params| == bound + i + 1 && params[bound..] == Cells(sorts[..i], cursor) + [Cell(cursor, sorts[i].column)]
    ensures BranchIs(branch, sorts, cursor, side, i, params)
  {
    forall j | 0 <= j <= i
      ensures ConditionIs(branch[j], sorts, cursor, side, i, j, params)
    {
      assert params[bound + j] == params[bound..][j];
    }
  }

  lemma NullBranchesFail(branches: seq<Branch>, pivots: seq<nat>, sorts: seq<Sort>, cursor: Row, side: Side,
      params: seq<Value>)
    requires |branches| == |pivots|
    requires forall k :: 0 <= k < |pivots| ==>
        pivots[k] < |sorts| && BranchIs(branches[k], sorts, cursor, side, pivots[k], params)
    requires forall k :: 0 <= k < |sorts| ==> k in pivots || Cell(cursor, sorts[k].column) == Null
    ensures forall row :: AnyHolds(branches, row, params) <==> Selected(sorts, row, cursor, side)
  {
    forall row
      ensures AnyHolds(branches, row, params) <==> Selected(sorts, row, cursor, side)
    {
      forall k | 0 <= k < |pivots|
        ensures BranchHolds(branches[k], row, params) <==> Fits(sorts, row, cursor, side, pivots[k])
      {
        BranchMeans(branches[k], sorts, cursor, side, pivots[k], params, row);
      }
      forall i | 0 <= i < |sorts| && Fits(sorts, row, cursor, side, i)
        ensures i in pivots
      {
      }
      hide BranchHolds, Fits, BranchIs;
      if Selected(sorts, row, cursor, side) {
        var i :| 0 <= i < |sorts| && Fits(sorts, row, cursor, side, i);
        var k :| 0 <= k < |pivots| && pivots[k] == i;
        assert branches[k] in branches;
      }
      if AnyHolds(branches, row, params) {
        var b :| b in branches && BranchHolds(b, row, params);
        var k :| 0 <= k < |branches| && branches[k] == b;
        assert Fits(sorts, row, cursor, side, pivots[k]);
      }
    }
  }

  /** The first column in which two rows differ decides, in the direction asked for. */
  lemma {:induction false} FirstDifferenceOrders(sorts: seq<Sort>, a: Row, b: Row, i: nat)
    requires i < |sorts| && forall j :: 0 <= j <= i ==> sorts[j].column in a.cells && sorts[j].column in b.cells
    requires forall j :: 0 <= j < i ==> a.cells[sorts[j].column] == b.cells[sorts[j].column]
    requires a.cells[sorts[i].column] != b.cells[sorts[i].column]
    ensures var order := ValueOrder(a.cells[sorts[i].column], b.cells[sorts[i].column]);
            (RowOrder(sorts, a, b) < 0 <==> if sorts[i].ascending then order < 0 else order > 0)
              && RowOrder(sorts, a, b) != 0
    decreases i
  {
    ValueOrderTotal(Cell(a, sorts[0].column), Cell(b, sorts[0].column));
    if i > 0 {
      assert forall j :: 0 <= j <= i - 1 ==> sorts[1..][j] == sorts[j + 1];
      FirstDifferenceOrders(sorts[1..], a, b, i - 1);
    }
  }

  // --- What a query answers ---

  /** The rows a filter leaves, as ORDER BY gives them: no two sort alike, because `id` is last and unique. */
  ghost predicate Ordered(sorts: seq<Sort>, rows: seq<Row>) {
    && (forall row <- rows :: Keyed(sorts, row))
    && forall i, j :: 0 <= i < j < |rows| ==> RowOrder(sorts, rows[i], rows[j]) < 0
  }

  /** The rows a predicate leaves, in their order. */
  function Where(rows: seq<Row>, branches: seq<Branch>, values: seq<Value>): seq<Row> {
    if rows == [] then []
    else if AnyHolds(branches, rows[0], values) then [rows[0]] + Where(rows[1..], branches, values)
    else Where(rows[1..], branches, values)
  }

  /** How many rows sort before the cursor, and how many do not sort after it. */
  function Lo(sorts: seq<Sort>, rows: seq<Row>, cursor: Row): (n: nat)
    ensures n <= |rows|
  {
    if rows == [] || RowOrder(sorts, rows[0], cursor) >= 0 then 0 else 1 + Lo(sorts, rows[1..], cursor)
  }

  function Hi(sorts: seq<Sort>, rows: seq<Row>, cursor: Row): (n: nat)
    ensures n <= |rows|
  {
    if rows == [] || RowOrder(sorts, rows[0], cursor) > 0 then 0 else 1 + Hi(sorts, rows[1..], cursor)
  }

  lemma {:induction false} LoHiSplit(sorts: seq<Sort>, rows: seq<Row>, cursor: Row)
    requires Ordered(sorts, rows)
    ensures Lo(sorts, rows, cursor) <= Hi(sorts, rows, cursor) <= Lo(sorts, rows, cursor) + 1
    ensures forall i :: 0 <= i < |rows| ==> (RowOrder(sorts, rows[i], cursor) < 0 <==> i < Lo(sorts, rows, cursor))
    ensures forall i :: 0 <= i < |rows| ==> (RowOrder(sorts, rows[i], cursor) > 0 <==> i >= Hi(sorts, rows, cursor))
    decreases |rows|
  {
    if rows != [] {
      var rest := rows[1..];
      LoHiSplit(sorts, rest, cursor);
      forall i | 0 < i < |rows|
        ensures RowOrder(sorts, rows[0], cursor) >= 0 ==> RowOrder(sorts, rows[i], cursor) > 0
      {
        if RowOrder(sorts, rows[0], cursor) >= 0 && RowOrder(sorts, rows[i], cursor) <= 0 {
          RowOrderTransitive(sorts, rows[0], rows[i], cursor);
        }
      }
      assert forall i :: 0 < i < |rows| ==> rows[i] == rest[i - 1];
    }
  }

  lemma {:induction false} WhereIs(rows: seq<Row>, branches: seq<Branch>, values: seq<Value>, from: nat, to: nat)
    requires from <= to <= |rows|
    requires forall i :: 0 <= i < |rows| ==> (AnyHolds(branches, rows[i], values) <==> from <= i < to)
    ensures Where(rows, branches, values) == Cut(rows, from, to)
    decreases |rows|
  {
    if rows != [] {
      var rest := rows[1..];
      CutTail(rows, from, to);
      hide AnyHolds, Cut;
      assert forall i :: 0 <= i < |rest| ==> rest[i] == rows[i + 1];
      if from > 0 {
        WhereIs(rest, branches, values, from - 1, to - 1);
      } else {
        WhereIs(rest, branches, values, 0, Max(0, to - 1));
        CutIs(rest, 0, 0);
      }
    }
  }

  /** A keyset leaves the rows before its cursor, or those after it. */
  lemma WhereSelects(sorts: seq<Sort>, rows: seq<Row>, cursor: Row, side: Side, branches: seq<Branch>,
      values: seq<Value>)
    requires Ordered(sorts, rows) && Keyed(sorts, cursor)
    requires forall row :: AnyHolds(branches, row, values) <==> Selected(sorts, row, cursor, side)
    ensures Where(rows, branches, values) ==
              if side.Before? then Cut(rows, 0, Lo(sorts, rows, cursor)) else Cut(rows, Hi(sorts, rows, cursor), |rows|)
  {
    LoHiSplit(sorts, rows, cursor);
    forall i | 0 <= i < |rows|
      ensures AnyHolds(branches, rows[i], values) <==> Sorts(sorts, rows[i], cursor, side)
    {
      assert rows[i] in rows;
      SelectedSorts(sorts, rows[i], cursor, side);
    }
    hide AnyHolds;
    if side.Before? {
      WhereIs(rows, branches, values, 0, Lo(sorts, rows, cursor));
    } else {
      WhereIs(rows, branches, values, Hi(sorts, rows, cursor), |rows|);
    }
  }

  // --- Postgres windows ---

  datatype Request = First | AfterRow(cursor: Row) | BeforeRow(cursor: Row) | AroundRow(cursor: Row)

  /** Where the window of a request lies among the filtered rows. */
  function Window(sorts: seq<Sort>, rows: seq<Row>, limit: nat, request: Request): (w: (nat, nat))
    requires request.First? || Lo(sorts, rows, request.cursor) <= Hi(sorts, rows, request.cursor)
    ensures w.0 <= w.1 <= |rows|
  {
    match request
    case First => (0, Min(limit, |rows|))
    case AfterRow(cursor) => var hi := Hi(sorts, rows, cursor); (hi, Min(hi + limit, |rows|))
    case BeforeRow(cursor) => var lo := Lo(sorts, rows, cursor); (Max(0, lo - limit), lo)
    case AroundRow(cursor) =>
      var lo := Lo(sorts, rows, cursor);
      var start := Max(0, lo - limit / 2);
      (start, Min(start + limit, |rows|))
  }

  /** Row `i` is among the first `split` rows exactly when it sorts before the cursor; with `at`, or where it does. */
  ghost predicate SplitsAt(sorts: seq<Sort>, rows: seq<Row>, cursor: Row, split: nat, at: bool) {
    split <= |rows| && forall i :: 0 <= i < |rows| ==>
      (i < split <==> RowOrder(sorts, rows[i], cursor) < 0 || (at && RowOrder(sorts, rows[i], cursor) == 0))
  }

  /** A window starts after its cursor, ends before it, or starts half a page before it, and is as full as it can be. */
  lemma WindowIs(sorts: seq<Sort>, rows: seq<Row>, limit: nat, request: Request)
    requires Ordered(sorts, rows)
    ensures request.First? || Lo(sorts, rows, request.cursor) <= Hi(sorts, rows, request.cursor)
    ensures var (from, to) := Window(sorts, rows, limit, request);
            && (request.First? ==> from == 0 && to == Min(limit, |rows|))
            && (request.AfterRow? ==> SplitsAt(sorts, rows, request.cursor, from, true)
                                      && to == Min(from + limit, |rows|))
            && (request.BeforeRow? ==> SplitsAt(sorts, rows, request.cursor, to, false) && from == Max(0, to - limit))
            && (request.AroundRow? ==> to == Min(from + limit, |rows|)
                                       && exists anchor: nat :: SplitsAt(sorts, rows, request.cursor, anchor, false)
                                                                && from == Max(0, anchor - limit / 2))
  {
    if !request.First? {
      LoHiSplit(sorts, rows, request.cursor);
      assert SplitsAt(sorts, rows, request.cursor, Lo(sorts, rows, request.cursor), false);
      assert SplitsAt(sorts, rows, request.cursor, Hi(sorts, rows, request.cursor), true);
    }
  }

  /** The number of rows a cursor that is one of them stands after. */
  lemma RowAt(sorts: seq<Sort>, rows: seq<Row>, k: nat)
    requires Ordered(sorts, rows) && k < |rows|
    ensures Lo(sorts, rows, rows[k]) == k && Hi(sorts, rows, rows[k]) == k + 1 && Keyed(sorts, rows[k])
  {
    LoHiSplit(sorts, rows, rows[k]);
    RowOrderFlips(sorts, rows[k], rows[k]);
    assert rows[k] in rows;
    if k + 1 < |rows| { RowOrderFlips(sorts, rows[k], rows[k + 1]); }
  }

  /** The closest rows before a cursor, in order. */
  method FetchBefore(sorts: seq<Sort>, rows: seq<Row>, cursor: Row, limit: nat) returns (found: seq<Row>)
    requires Ordered(sorts, rows) && Keyed(sorts, cursor)
    ensures var lo := Lo(sorts, rows, cursor); found == Cut(rows, Max(0, lo - limit), lo)
  {
    hide *;
    LastBefore(rows, Lo(sorts, rows, cursor), limit);
    var before := Beside(sorts, rows, cursor, Before);
    found := Reverse(Limit(Reverse(before), limit));
  }

  /** The closest rows after a cursor. */
  method FetchAfter(sorts: seq<Sort>, rows: seq<Row>, cursor: Row, limit: nat) returns (found: seq<Row>)
    requires Ordered(sorts, rows) && Keyed(sorts, cursor)
    ensures var hi := Hi(sorts, rows, cursor); found == Cut(rows, hi, Min(hi + limit, |rows|))
  {
    hide *;
    FirstFrom(rows, Hi(sorts, rows, cursor), limit);
    var after := Beside(sorts, rows, cursor, After);
    found := Limit(after, limit);
  }

  /** The rows on one side of a cursor. */
  method Beside(sorts: seq<Sort>, rows: seq<Row>, cursor: Row, side: Side) returns (found: seq<Row>)
    requires Ordered(sorts, rows) && Keyed(sorts, cursor)
    ensures found == if side.Before? then Cut(rows, 0, Lo(sorts, rows, cursor))
        else Cut(rows, Hi(sorts, rows, cursor), |rows|)
  {
    var sql := new Sql();
    var keyset := PostgresKeyset(sql, sorts, cursor, side);
    WhereSelects(sorts, rows, cursor, side, keyset, sql.values);
    hide *;
    found := Where(rows, keyset, sql.values);
  }

  /** The rows at or after the anchor of an `:around` request. */
  method FetchFrom(sorts: seq<Sort>, rows: seq<Row>, cursor: Row, limit: nat) returns (found: seq<Row>)
    requires Ordered(sorts, rows) && Keyed(sorts, cursor)
    ensures var lo := Lo(sorts, rows, cursor); found == Cut(rows, lo, Min(lo + limit, |rows|))
  {
    LoHiSplit(sorts, rows, cursor);
    var sql := new Sql();
    var keyset := PostgresKeyset(sql, sorts, cursor, After);
    ghost var values := sql.values;
    var equal: Branch := [];
    var i := 0;
    while i < |sorts|
      invariant 0 <= i <= |sorts| && |equal| == i && values <= sql.values
      invariant forall j :: 0 <= j < i ==> EqualAt(equal[j], sorts, cursor, j, sql.values)
    {
      var number := sql.Param(Cell(cursor, sorts[i].column));
      equal := equal + [Condition(sorts[i].column, Eq, number)];
      i := i + 1;
    }
    AtOrAfter(sorts, rows, cursor, keyset, values, equal, sql.values);
    hide *;
    FirstFrom(rows, Lo(sorts, rows, cursor), limit);
    return Limit(Where(rows, keyset + [equal], sql.values), limit);
  }

  ghost predicate EqualAt(c: Condition, sorts: seq<Sort>, cursor: Row, j: nat, values: seq<Value>)
    requires j < |sorts|
  {
    c.column == sorts[j].column && c.op == Eq && 1 <= c.param <= |values|
      && values[c.param - 1] == Cell(cursor, sorts[j].column)
  }

  lemma AtOrAfter(sorts: seq<Sort>, rows: seq<Row>, cursor: Row, keyset: seq<Branch>, bound: seq<Value>, equal: Branch,
      values: seq<Value>)
    requires Ordered(sorts, rows) && Keyed(sorts, cursor) && Bound(keyset, bound) && bound <= values
    requires forall row :: AnyHolds(keyset, row, bound) <==> Selected(sorts, row, cursor, After)
    requires |equal| == |sorts| && forall j :: 0 <= j < |sorts| ==> EqualAt(equal[j], sorts, cursor, j, values)
    ensures Where(rows, keyset + [equal], values) == Cut(rows, Lo(sorts, rows, cursor), |rows|)
  {
    LoHiSplit(sorts, rows, cursor);
    forall i | 0 <= i < |rows|
      ensures AnyHolds(keyset + [equal], rows[i], values) <==> RowOrder(sorts, rows[i], cursor) >= 0
    {
      assert rows[i] in rows;
      BoundStays(keyset, bound, values, rows[i]);
      SelectedSorts(sorts, rows[i], cursor, After);
      EqualMeans(sorts, rows[i], cursor, equal, values);
      OneMore(keyset, equal, rows[i], values);
    }
    hide AnyHolds;
    WhereIs(rows, keyset + [equal], values, Lo(sorts, rows, cursor), |rows|);
  }

  lemma OneMore(branches: seq<Branch>, branch: Branch, row: Row, values: seq<Value>)
    ensures AnyHolds(branches + [branch], row, values) <==>
        AnyHolds(branches, row, values) || BranchHolds(branch, row, values)
  {
    hide BranchHolds;
    if AnyHolds(branches, row, values) {
      var b :| b in branches && BranchHolds(b, row, values);
      assert b in branches + [branch];
    }
    assert branch in branches + [branch];
  }

  lemma EqualMeans(sorts: seq<Sort>, row: Row, cursor: Row, equal: Branch, values: seq<Value>)
    requires Keyed(sorts, row) && Keyed(sorts, cursor)
    requires |equal| == |sorts| && forall j :: 0 <= j < |sorts| ==> EqualAt(equal[j], sorts, cursor, j, values)
    ensures BranchHolds(equal, row, values) <==> RowOrder(sorts, row, cursor) == 0
  {
    forall j | 0 <= j < |sorts|
      ensures Holds(equal[j], row, values) <==> Cell(row, sorts[j].column) == Cell(cursor, sorts[j].column)
    {
      assert EqualAt(equal[j], sorts, cursor, j, values) && sorts[j] in sorts;
      ValueOrderTotal(Cell(row, sorts[j].column), Cell(cursor, sorts[j].column));
    }
    EqualRows(sorts, row, cursor);
    hide Holds, EqualAt;
    assert BranchHolds(equal, row, values) <==> forall j :: 0 <= j < |equal| ==> Holds(equal[j], row, values);
    assert AgreeTo(sorts, row, cursor, |sorts|) <==> forall j :: 0 <= j < |equal| ==> Holds(equal[j], row, values);
  }

  lemma {:induction false} EqualRows(sorts: seq<Sort>, a: Row, b: Row)
    ensures RowOrder(sorts, a, b) == 0 <==> AgreeTo(sorts, a, b, |sorts|)
    decreases |sorts|
  {
    if sorts != [] {
      ValueOrderTotal(Cell(a, sorts[0].column), Cell(b, sorts[0].column));
      EqualRows(sorts[1..], a, b);
      if Cell(a, sorts[0].column) == Cell(b, sorts[0].column) {
        AgreeShifts(sorts, a, b, |sorts| - 1);
      }
    }
  }

  /** How many rows a keyset counts. */
  method Count(sorts: seq<Sort>, rows: seq<Row>, cursor: Row, side: Side) returns (n: nat)
    requires Ordered(sorts, rows) && Keyed(sorts, cursor)
    ensures n == if side.Before? then Lo(sorts, rows, cursor) else |rows| - Hi(sorts, rows, cursor)
  {
    CutIs(rows, 0, Lo(sorts, rows, cursor));
    CutIs(rows, Hi(sorts, rows, cursor), |rows|);
    hide *;
    var found := Beside(sorts, rows, cursor, side);
    return |found|;
  }

  predicate GoodRequest(sorts: seq<Sort>, request: Request) {
    request.First? || Keyed(sorts, request.cursor)
  }

  /** The rows a request asks for are a contiguous window of the filtered ones. */
  method PostgresItems(sorts: seq<Sort>, rows: seq<Row>, limit: nat, request: Request) returns (items: seq<Row>)
    requires Ordered(sorts, rows) && limit > 0 && GoodRequest(sorts, request)
    ensures request.First? || Lo(sorts, rows, request.cursor) <= Hi(sorts, rows, request.cursor)
    ensures var w := Window(sorts, rows, limit, request); items == Cut(rows, w.0, w.1)
  {
    hide Ordered, Keyed, Lo, Hi, Cell, RowOrder, Cut, Limit;
    if request.First? {
      CutIs(rows, 0, |rows|);
      FirstFrom(rows, 0, limit);
      return Limit(rows, limit);
    }
    var cursor := request.cursor;
    LoHiSplit(sorts, rows, cursor);
    if request.AfterRow? {
      items := FetchAfter(sorts, rows, cursor, limit);
    } else if request.BeforeRow? {
      items := FetchBefore(sorts, rows, cursor, limit);
    } else {
      items := Around(sorts, rows, limit, cursor);
    }
  }

  /** Half a page before the anchor, then the anchor and what follows it. */
  method Around(sorts: seq<Sort>, rows: seq<Row>, limit: nat, cursor: Row) returns (items: seq<Row>)
    requires Ordered(sorts, rows) && limit > 0 && Keyed(sorts, cursor)
    ensures var start := Max(0, Lo(sorts, rows, cursor) - limit / 2);
        items == Cut(rows, start, Min(start + limit, |rows|))
  {
    hide Ordered, Keyed, Lo, Hi, Cell, RowOrder, Cut;
    var lo := Lo(sorts, rows, cursor);
    var before := FetchBefore(sorts, rows, cursor, limit / 2);
    CutIs(rows, Max(0, lo - limit / 2), lo);
    var after := FetchFrom(sorts, rows, cursor, limit - |before|);
    Joined(rows, Max(0, lo - limit / 2), lo, Min(lo + (limit - |before|), |rows|));
    items := before + after;
  }

  /**
   * A Postgres cursor page: the window its request names, with the number of rows before it and after
   * it. An empty window counts nothing.
   */
  method PostgresPage(sorts: seq<Sort>, rows: seq<Row>, limit: nat, request: Request)
      returns (items: seq<Row>, prev: nat, next: nat)
    requires Ordered(sorts, rows) && limit > 0 && GoodRequest(sorts, request)
    ensures request.First? || Lo(sorts, rows, request.cursor) <= Hi(sorts, rows, request.cursor)
    ensures var w := Window(sorts, rows, limit, request);
            && items == Cut(rows, w.0, w.1)
            && (items != [] ==> prev == w.0 && prev + |items| + next == |rows|)
            && (items == [] ==> prev == 0 && next == 0)
  {
    items := PostgresItems(sorts, rows, limit, request);
    ghost var w := Window(sorts, rows, limit, request);
    prev, next := Counts(sorts, rows, items, w.0, w.1);
  }

  lemma EndsAt(sorts: seq<Sort>, rows: seq<Row>, items: seq<Row>, from: nat, to: nat)
    requires Ordered(sorts, rows) && from <= to <= |rows| && items == Cut(rows, from, to) && items != []
    ensures Keyed(sorts, items[0]) && Lo(sorts, rows, items[0]) == from
    ensures Keyed(sorts, items[|items| - 1]) && Hi(sorts, rows, items[|items| - 1]) == to
  {
    hide *;
    CutIs(rows, from, to);
    ThisRowAt(sorts, rows, items[0], from);
    ThisRowAt(sorts, rows, items[|items| - 1], to - 1);
  }

  lemma ThisRowAt(sorts: seq<Sort>, rows: seq<Row>, row: Row, k: nat)
    requires Ordered(sorts, rows) && k < |rows| && row == rows[k]
    ensures Keyed(sorts, row) && Lo(sorts, rows, row) == k && Hi(sorts, rows, row) == k + 1
  {
    RowAt(sorts, rows, k);
  }

  /** How many rows lie before the first item and after the last. */
  method Counts(sorts: seq<Sort>, rows: seq<Row>, items: seq<Row>, ghost from: nat, ghost to: nat)
      returns (prev: nat, next: nat)
    requires Ordered(sorts, rows) && from <= to <= |rows| && items == Cut(rows, from, to)
    ensures items != [] ==> prev == from && prev + |items| + next == |rows|
    ensures items == [] ==> prev == 0 && next == 0
  {
    CutIs(rows, from, to);
    hide *;
    if items == [] {
      return 0, 0;
    }
    EndsAt(sorts, rows, items, from, to);
    prev := Count(sorts, rows, items[0], Before);
    next := Count(sorts, rows, items[|items| - 1], After);
  }

  // --- Walks ---

  function Flatten(pages: seq<seq<Row>>): seq<Row> {
    if pages == [] then [] else Flatten(pages[..|pages| - 1]) + pages[|pages| - 1]
  }

  /** `pages` are full pages of the first `seen` rows, in order, as few as hold them. */
  ghost predicate Covers(pages: seq<seq<Row>>, rows: seq<Row>, limit: nat, seen: nat)
    requires seen <= |rows|
  {
    && Flatten(pages) == Cut(rows, 0, seen) && |pages| > 0
    && seen == Min(|pages| * limit, |rows|) && (rows != [] ==> (|pages| - 1) * limit < |rows|)
  }

  lemma FirstCovers(rows: seq<Row>, limit: nat)
    ensures Covers([Cut(rows, 0, Min(limit, |rows|))], rows, limit, Min(limit, |rows|))
  {
    var page := Cut(rows, 0, Min(limit, |rows|));
    hide Cut;
    assert Flatten([]) == [];
    assert [page][..0] == [];
  }

  lemma NextCovers(pages: seq<seq<Row>>, rows: seq<Row>, limit: nat, seen: nat)
    requires seen < |rows| && Covers(pages, rows, limit, seen)
    ensures Covers(pages + [Cut(rows, seen, Min(seen + limit, |rows|))], rows, limit, Min(seen + limit, |rows|))
  {
    var end := Min(seen + limit, |rows|);
    var page := Cut(rows, seen, end);
    Joined(rows, 0, seen, end);
    hide Cut;
    assert (pages + [page])[..|pages|] == pages;
    assert (|pages| + 1) * limit == |pages| * limit + limit;
  }

  /** A request after the row at `seen - 1` answers the page that starts at `seen`. */
  lemma AskedWindow(sorts: seq<Sort>, rows: seq<Row>, limit: nat, seen: nat, page: seq<Row>, from: nat)
    requires Ordered(sorts, rows) && from < seen <= |rows| && page == Cut(rows, from, seen)
    ensures page != [] && GoodRequest(sorts, AfterRow(page[|page| - 1]))
    ensures Hi(sorts, rows, page[|page| - 1]) == seen
  {
    hide Ordered, Cut, Lo, Hi, Keyed, RowOrder, Cell;
    CutIs(rows, from, seen);
    ThisRowAt(sorts, rows, page[|page| - 1], seen - 1);
  }

  /**
   * Following the `next` of each Postgres page from the first one visits every filtered row once, in order,
   * in the least number of pages that holds them.
   */
  method PostgresWalk(sorts: seq<Sort>, rows: seq<Row>, limit: nat) returns (pages: seq<seq<Row>>)
    requires Ordered(sorts, rows) && limit > 0
    ensures Covers(pages, rows, limit, |rows|) && Flatten(pages) == rows
  {
    hide Ordered, Lo, Hi, Keyed, Covers, Cut;
    FirstCovers(rows, limit);
    CutIs(rows, 0, Min(limit, |rows|));
    CutIs(rows, 0, |rows|);
    var items, prev, next := PostgresPage(sorts, rows, limit, First);
    pages := [items];
    ghost var from: nat, seen: nat := 0, |items|;
    while next > 0
      invariant from <= seen <= |rows| && next == |rows| - seen && items == Cut(rows, from, seen)
      invariant next > 0 ==> from < seen
      invariant Covers(pages, rows, limit, seen)
      decreases next
    {
      AskedWindow(sorts, rows, limit, seen, items, from);
      NextCovers(pages, rows, limit, seen);
      from, seen := seen, Min(seen + limit, |rows|);
      CutIs(rows, from, seen);
      items, prev, next := PostgresPage(sorts, rows, limit, AfterRow(items[|items| - 1]));
      pages := pages + [items];
    }
    CoversAll(pages, rows, limit);
  }

  lemma CoversAll(pages: seq<seq<Row>>, rows: seq<Row>, limit: nat)
    requires Covers(pages, rows, limit, |rows|)
    ensures Flatten(pages) == rows
  {
  }

  // --- D1 pages ---

  datatype D1Page = D1Page(items: seq<Row>, hasPrev: bool, hasNext: bool, prev: nat, next: nat, total: nat)

  /** The neighbours and the total a page tells of: none of them counts the rows at the cursor itself. */
  predicate D1Tells(sorts: seq<Sort>, rows: seq<Row>, limit: nat, request: Request, page: D1Page)
    requires !request.AroundRow?
  {
    if request.First? then !page.hasPrev && (page.hasNext <==> limit < |rows|) && page.total == |rows|
    else
      var lo, hi := Lo(sorts, rows, request.cursor), Hi(sorts, rows, request.cursor);
      && page.total == |rows| - (hi - lo)
      && if request.AfterRow? then (page.hasNext <==> hi + limit < |rows|) && (page.hasPrev <==> lo > 0)
         else (page.hasPrev <==> limit < lo) && (page.hasNext <==> hi < |rows|)
  }

  /**
   * Fetch one row more than the page to know whether there is a next one; count what lies on either side of
   * the cursor.
   */
  method D1Query(sorts: seq<Sort>, rows: seq<Row>, limit: nat, request: Request) returns (page: D1Page)
    requires Ordered(sorts, rows) && limit > 0 && GoodRequest(sorts, request) && !request.AroundRow? && sorts != []
    ensures request.First? || Lo(sorts, rows, request.cursor) <= Hi(sorts, rows, request.cursor)
    ensures var w := Window(sorts, rows, limit, request);
            page.items == Cut(rows, w.0, w.1) && page.total == page.prev + |page.items| + page.next
    ensures D1Tells(sorts, rows, limit, request, page)
  {
    hide Ordered, Keyed, Lo, Hi, Cell, RowOrder, Cut, Limit, Reverse;
    if request.First? {
      CutIs(rows, 0, |rows|);
      page := D1Forward(rows, rows, 0, 0, limit);
    } else {
      var after := D1Where(sorts, rows, request.cursor, true);
      var before := D1Where(sorts, rows, request.cursor, false);
      CutIs(rows, 0, Lo(sorts, rows, request.cursor));
      CutIs(rows, Hi(sorts, rows, request.cursor), |rows|);
      if request.AfterRow? {
        page := D1Forward(rows, after, Hi(sorts, rows, request.cursor), |before|, limit);
      } else {
        page := D1Backward(rows, before, Lo(sorts, rows, request.cursor), |after|, limit);
      }
    }
  }

  /** The page of what follows position `from`, with as many rows counted before it. */
  method D1Forward(ghost rows: seq<Row>, after: seq<Row>, ghost from: nat, prev: nat, limit: nat) returns (page: D1Page)
    requires limit > 0 && from <= |rows| && after == Cut(rows, from, |rows|) && |after| == |rows| - from
    ensures page.items == Cut(rows, from, Min(from + limit, |rows|)) && (page.hasNext <==> from + limit < |rows|)
        && (page.hasPrev <==> prev > 0)
    ensures page.total == page.prev + |page.items| + page.next == prev + |after|
  {
    OneOver(after, limit);
    FirstFrom(rows, from, limit);
    hide Cut, Limit;
    var fetched := Limit(after, limit + 1);
    var more := |fetched| > limit;
    var items := if more then Limit(fetched, limit) else fetched;
    var next := Max(0, |after| - limit);
    return D1Page(items, prev > 0, more, prev, next, prev + |items| + next);
  }

  /** The page of what precedes position `to`, with as many rows counted after it. */
  method D1Backward(ghost rows: seq<Row>, before: seq<Row>, ghost to: nat, next: nat, limit: nat) returns (page: D1Page)
    requires limit > 0 && to <= |rows| && before == Cut(rows, 0, to) && |before| == to
    ensures page.items == Cut(rows, Max(0, to - limit), to) && (page.hasPrev <==> limit < to)
        && (page.hasNext <==> next > 0)
    ensures page.total == page.prev + |page.items| + page.next == to + next
  {
    OneOver(Reverse(before), limit);
    LastBefore(rows, to, limit);
    CutIs(rows, Max(0, to - limit), to);
    hide Cut, Limit, Reverse;
    var fetched := Limit(Reverse(before), limit + 1);
    var more := |fetched| > limit;
    var items := Reverse(if more then Limit(fetched, limit) else fetched);
    var prev := Max(0, |before| - limit);
    return D1Page(items, more, next > 0, prev, next, prev + |items| + next);
  }

  method D1Where(sorts: seq<Sort>, rows: seq<Row>, cursor: Row, forward: bool) returns (left: seq<Row>)
    requires Ordered(sorts, rows) && Keyed(sorts, cursor) && sorts != []
    ensures Lo(sorts, rows, cursor) <= Hi(sorts, rows, cursor)
    ensures left == if forward then Cut(rows, Hi(sorts, rows, cursor), |rows|)
        else Cut(rows, 0, Lo(sorts, rows, cursor))
  {
    LoHiSplit(sorts, rows, cursor);
    var branches, params := CursorCondition(sorts, cursor, forward);
    assert branches != [] by { assert sorts[0] in sorts; }
    WhereSelects(sorts, rows, cursor, if forward then After else Before, branches, params);
    return Where(rows, branches, params);
  }

  /**
   * D1 counts neither the cursor's own row nor knows it: its total is the number of rows exactly when
   * that row is gone, and `has.prev` of the page after the very first row says there is none.
   */
  lemma D1MissesItsCursor(sorts: seq<Sort>, rows: seq<Row>, k: nat)
    requires Ordered(sorts, rows) && k < |rows|
    ensures Hi(sorts, rows, rows[k]) - Lo(sorts, rows, rows[k]) == 1
    ensures Lo(sorts, rows, rows[k]) > 0 <==> k > 0
    ensures Hi(sorts, rows, rows[k]) < |rows| <==> k + 1 < |rows|
  {
    RowAt(sorts, rows, k);
  }

  /** The same of D1, whose pages say whether there is a next one. */
  method D1Walk(sorts: seq<Sort>, rows: seq<Row>, limit: nat) returns (pages: seq<seq<Row>>)
    requires Ordered(sorts, rows) && limit > 0 && sorts != []
    ensures Covers(pages, rows, limit, |rows|) && Flatten(pages) == rows
  {
    hide Ordered, Lo, Hi, Keyed, Covers, Cut;
    FirstCovers(rows, limit);
    CutIs(rows, 0, Min(limit, |rows|));
    CutIs(rows, 0, |rows|);
    var page := D1Query(sorts, rows, limit, First);
    pages := [page.items];
    ghost var from: nat, seen: nat := 0, |page.items|;
    while page.hasNext
      invariant from <= seen <= |rows| && (page.hasNext <==> seen < |rows|) && page.items == Cut(rows, from, seen)
      invariant page.hasNext ==> from < seen
      invariant Covers(pages, rows, limit, seen)
      decreases |rows| - seen
    {
      AskedWindow(sorts, rows, limit, seen, page.items, from);
      NextCovers(pages, rows, limit, seen);
      from, seen := seen, Min(seen + limit, |rows|);
      CutIs(rows, from, seen);
      page := D1Query(sorts, rows, limit, AfterRow(page.items[|page.items| - 1]));
      pages := pages + [page.items];
    }
    CoversAll(pages, rows, limit);
  }
}
