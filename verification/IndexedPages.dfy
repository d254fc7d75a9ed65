/**
 * The storage object itself: a page walked from an index is the page of `queryDocs`, and the count
 * a page's `total` comes from stays the number of rows.
 * packages/client/src/LivequeryIndexedDBStorage.ts.
 */
module IndexedPages {
  import opened Wrappers
  import opened Utf16
  import opened Documents
  import opened Paging
  import opened IndexedStorage
  import Lists

  // --- What the database hands out ---

  /** `getAll` of a collection: every row once, in some order. */
  ghost predicate GetAll(sources: seq<Doc>, rows: map<Text, Doc>) {
    && |sources| == |rows|
    && DistinctIds(sources)
    && forall d <- sources :: d.id in rows && rows[d.id] == d
  }

  /** An index: every document that has a key, in key order. */
  ghost predicate IsIndex(source: seq<Doc>, name: IndexName, collection: Text, docs: seq<Doc>) {
    && multiset(source) == multiset(docs)
    && (forall d <- source :: KeyOf(name, collection, d).Some? && CleanFor(name, d))
    && forall i, j :: 0 <= i < j < |source| ==>
         KeyOrder(KeyOf(name, collection, source[i]).value, KeyOf(name, collection, source[j]).value) < 0
  }

  predicate Keyed(name: IndexName, collection: Text, range: Range, doc: Doc) {
    KeyOf(name, collection, doc).Some? && Contains(range, KeyOf(name, collection, doc).value)
  }

  function Matching(name: IndexName, collection: Text, source: seq<Doc>, range: Range): seq<Doc> {
    if source == [] then []
    else
      (if Keyed(name, collection, range, source[0]) then [source[0]] else [])
        + Matching(name, collection, source[1..], range)
  }

  /** `openCursor(range, 'next' | 'prev')`, read to the end. */
  function CursorWalk(name: IndexName, collection: Text, source: seq<Doc>, range: Range, up: bool): seq<Doc> {
    var matching := Matching(name, collection, source, range);
    if up then matching else Lists.Reverse(matching)
  }

  lemma {:induction false} MatchingSlice(name: IndexName, collection: Text, source: seq<Doc>, range: Range, lo: int,
      hi: int)
    requires 0 <= lo <= hi <= |source|
    requires forall i :: 0 <= i < |source| ==> (Keyed(name, collection, range, source[i]) <==> lo <= i < hi)
    ensures Matching(name, collection, source, range) == source[lo..hi]
    decreases |source|
  {
    hide Keyed;
    if source != [] {
      MatchingSlice(name, collection, source[1..], range, Lists.Max(0, lo - 1), Lists.Max(0, hi - 1));
      assert source == [source[0]] + source[1..];
      assert lo == 0 && hi > 0 ==> source[lo..hi] == [source[0]] + source[1..][0..hi - 1];
      assert lo > 0 ==> source[lo..hi] == source[1..][lo - 1..hi - 1];
    } else {
      assert source[lo..hi] == [];
    }
  }

  // --- Four walk directions ---

  function InOrder(source: seq<Doc>, ascending: bool): seq<Doc> {
    if ascending then source else Lists.Reverse(source)
  }

  lemma KeyInside(name: IndexName, collection: Text, doc: Doc)
    requires KeyOf(name, collection, doc).Some?
    ensures KeyOrder(KeyOf(name, collection, doc).value, Bottom(collection)) > 0
    ensures KeyOrder(KeyOf(name, collection, doc).value, Top(collection)) < 0
  {
    var items := KeyOf(name, collection, doc).value.items;
    SeqOrderZero(collection, collection);
    KeysOrderPair(items, Bottom(collection).items);
    KeysOrderPair(items, Top(collection).items);
    KeysOrderPair(items[1..], Top(collection).items[1..]);
    KeysOrderPair(items[1].items, [KInfinity]);
  }

  lemma BeyondContains(name: IndexName, collection: Text, doc: Doc, other: Doc, up: bool)
    requires KeyOf(name, collection, doc).Some? && KeyOf(name, collection, other).Some?
    ensures var order := KeyOrder(KeyOf(name, collection, other).value, KeyOf(name, collection, doc).value);
            Keyed(name, collection, Beyond(collection, KeyOf(name, collection, doc).value, up), other)
            <==> if up then order > 0 else order < 0
  {
    hide KeyOf, KeyOrder;
    KeyInside(name, collection, other);
  }

  /** The index, read in the plan's direction, is the collection sorted by `compareDocs`. */
  lemma IndexIsSorted(source: seq<Doc>, name: IndexName, collection: Text, ascending: bool, sources: seq<Doc>)
    requires IsIndex(source, name, collection, sources) && DistinctIds(sources)
    requires name != Some([ID]) && (name.None? ==> !ascending)
    ensures Ordered(SortersFor(name, ascending), InOrder(source, ascending))
    ensures InOrder(source, ascending) == SortDocs(SortersFor(name, ascending), sources)
    ensures |source| == |sources| == |InOrder(source, ascending)|
  {
    hide *;
    IndexOrdered(source, name, collection, ascending, sources);
    InOrderMultiset(source, ascending);
    IndexMultiset(source, name, collection, sources);
    SortDocsOrdered(SortersFor(name, ascending), sources);
    SameSize(source, sources);
    OrderedUnique(SortersFor(name, ascending), InOrder(source, ascending),
      SortDocs(SortersFor(name, ascending), sources));
  }

  lemma InOrderMultiset(source: seq<Doc>, ascending: bool)
    ensures multiset(InOrder(source, ascending)) == multiset(source) && |InOrder(source, ascending)| == |source|
  {
    Lists.ReverseMultiset(source);
  }

  lemma IndexMultiset(source: seq<Doc>, name: IndexName, collection: Text, sources: seq<Doc>)
    requires IsIndex(source, name, collection, sources)
    ensures multiset(source) == multiset(sources)
  {
    hide KeyOf, CleanFor, KeyOrder;
  }

  lemma IndexOrdered(source: seq<Doc>, name: IndexName, collection: Text, ascending: bool, sources: seq<Doc>)
    requires IsIndex(source, name, collection, sources)
    requires name != Some([ID]) && (name.None? ==> !ascending)
    ensures Ordered(SortersFor(name, ascending), InOrder(source, ascending))
  {
    hide DocOrder, KeyOrder, KeyOf, CleanFor;
    var sorters, sorted := SortersFor(name, ascending), InOrder(source, ascending);
    forall i, j | 0 <= i < j < |sorted|
      ensures DocOrder(sorters, sorted[i], sorted[j]) < 0
    {
      Lists.ReverseIndexes(source);
      var n := |source|;
      var a, b := if ascending then i else n - 1 - j, if ascending then j else n - 1 - i;
      IndexPair(source, name, collection, ascending, sources, a, b);
    }
  }

  lemma IndexPair(source: seq<Doc>, name: IndexName, collection: Text, ascending: bool, sources: seq<Doc>, a: nat,
      b: nat)
    requires IsIndex(source, name, collection, sources) && a < b < |source|
    requires name != Some([ID]) && (name.None? ==> !ascending)
    ensures var sorters := SortersFor(name, ascending);
            if ascending then DocOrder(sorters, source[a], source[b]) < 0
                else DocOrder(sorters, source[b], source[a]) < 0
  {
    hide DocOrder, KeyOrder, KeyOf, CleanFor;
    assert source[a] in source && source[b] in source;
    KeyOrderIsDocOrder(name, collection, ascending, source[a], source[b]);
    DocOrderTotal(SortersFor(name, ascending), source[a], source[b]);
  }

  /**
   * Walking beyond a document: with the plan's direction it lists what sorts after it, against the
   * direction what sorts before it, nearest first.
   */
  lemma BeyondWalk(source: seq<Doc>, name: IndexName, collection: Text, ascending: bool, sources: seq<Doc>, doc: Doc,
      up: bool)
    requires IsIndex(source, name, collection, sources) && DistinctIds(sources)
    requires name != Some([ID]) && (name.None? ==> !ascending)
    requires KeyOf(name, collection, doc).Some? && CleanFor(name, doc)
    ensures var sorters, sorted := SortersFor(name, ascending), InOrder(source, ascending);
            CursorWalk(name, collection, source, Beyond(collection, KeyOf(name, collection, doc).value, up), up) ==
            if up == ascending then sorted[FirstAfter(sorters, sorted, doc)..]
            else Lists.Reverse(sorted[..FirstNotBefore(sorters, sorted, doc)])
  {
    hide *;
    hide FirstAfter, FirstNotBefore;
    IndexIsSorted(source, name, collection, ascending, sources);
    var sorters, sorted := SortersFor(name, ascending), InOrder(source, ascending);
    var range := Beyond(collection, KeyOf(name, collection, doc).value, up);
    var n, after, at := |source|, FirstAfter(sorters, sorted, doc), FirstNotBefore(sorters, sorted, doc);
    forall i | 0 <= i < n
      ensures Keyed(name, collection, range, source[i]) <==>
              var k := if ascending then i else n - 1 - i; if up == ascending then k >= after else k < at
    {
      KeyedBeyond(source, name, collection, ascending, sources, doc, up, i);
    }
    if up == ascending {
      MatchingSlice(name, collection, source, range, if ascending then after else 0, if ascending then n
        else n - after);
      SliceWalked(source, name, collection, range, ascending, up, after, n);
    } else {
      MatchingSlice(name, collection, source, range, if ascending then 0 else n - at, if ascending then at else n);
      SliceWalked(source, name, collection, range, ascending, up, 0, at);
    }
  }

  lemma SliceWalked(source: seq<Doc>, name: IndexName, collection: Text, range: Range, ascending: bool, up: bool,
      lo: nat, hi: nat)
    requires lo <= hi <= |source|
    requires Matching(name, collection, source, range)
        == source[(if ascending then lo else |source| - hi)..(if ascending then hi else |source| - lo)]
    ensures |InOrder(source, ascending)| == |source|
    ensures CursorWalk(name, collection, source, range, up) ==
            if up == ascending then InOrder(source, ascending)[lo..hi]
                else Lists.Reverse(InOrder(source, ascending)[lo..hi])
  {
    SliceReversed(source, ascending, lo, hi);
    WalkIs(name, collection, source, range, up);
    Lists.ReverseTwice(Matching(name, collection, source, range));
    hide CursorWalk, Matching, InOrder, Lists.Reverse;
  }

  lemma WalkIs(name: IndexName, collection: Text, source: seq<Doc>, range: Range, up: bool)
    ensures CursorWalk(name, collection, source, range, up) ==
            if up then Matching(name, collection, source, range)
                else Lists.Reverse(Matching(name, collection, source, range))
  {
  }

  /** A slice of the plan's order, found in the index. */
  lemma SliceReversed(source: seq<Doc>, ascending: bool, lo: nat, hi: nat)
    requires lo <= hi <= |source|
    ensures |InOrder(source, ascending)| == |source|
    ensures InOrder(source, ascending)[lo..hi] ==
            if ascending then source[lo..hi] else Lists.Reverse(source[|source| - hi..|source| - lo])
    ensures hi == |source| ==> InOrder(source, ascending)[lo..] == InOrder(source, ascending)[lo..hi]
    ensures lo == 0 ==> InOrder(source, ascending)[..hi] == InOrder(source, ascending)[lo..hi]
  {
    if !ascending {
      Lists.ReverseIndexes(source);
      Lists.ReverseIndexes(source[|source| - hi..|source| - lo]);
      var a, b := InOrder(source, ascending)[lo..hi], Lists.Reverse(source[|source| - hi..|source| - lo]);
      assert |a| == |b| && forall i :: 0 <= i < |a| ==> a[i] == b[i];
    }
  }

  lemma KeyedBeyond(source: seq<Doc>, name: IndexName, collection: Text, ascending: bool, sources: seq<Doc>, doc: Doc,
      up: bool, i: nat)
    requires IsIndex(source, name, collection, sources) && DistinctIds(sources)
    requires name != Some([ID]) && (name.None? ==> !ascending)
    requires KeyOf(name, collection, doc).Some? && CleanFor(name, doc) && i < |source|
    ensures var sorters, sorted := SortersFor(name, ascending), InOrder(source, ascending);
            var k := if ascending then i else |source| - 1 - i;
            Keyed(name, collection, Beyond(collection, KeyOf(name, collection, doc).value, up), source[i])
            <==> if up == ascending then k >= FirstAfter(sorters, sorted, doc)
              else k < FirstNotBefore(sorters, sorted, doc)
  {
    hide *;
    IndexIsSorted(source, name, collection, ascending, sources);
    var sorters, sorted := SortersFor(name, ascending), InOrder(source, ascending);
    var k := if ascending then i else |source| - 1 - i;
    InOrderAt(source, ascending, i);
    IndexMember(source, name, collection, sources, i);
    SignedIs(DocOrder(sorters, source[i], doc), ascending);
    BoundaryHolds(sorters, sorted, doc, k);
    BeyondContains(name, collection, doc, source[i], up);
    KeyOrderIsDocOrder(name, collection, ascending, source[i], doc);
  }

  lemma IndexMember(source: seq<Doc>, name: IndexName, collection: Text, sources: seq<Doc>, i: nat)
    requires IsIndex(source, name, collection, sources) && i < |source|
    ensures KeyOf(name, collection, source[i]).Some? && CleanFor(name, source[i])
  {
    hide KeyOf, CleanFor, KeyOrder;
    assert source[i] in source;
  }

  lemma InOrderAt(source: seq<Doc>, ascending: bool, i: nat)
    requires i < |source|
    ensures |InOrder(source, ascending)| == |source|
    ensures InOrder(source, ascending)[if ascending then i else |source| - 1 - i] == source[i]
  {
    if !ascending {
      Lists.ReverseIndexes(source);
    }
  }

  lemma SignedIs(order: int, ascending: bool)
    ensures Signed(order, ascending) == if ascending then order else -order
  {
  }

  lemma BoundaryHolds(sorters: seq<Sorter>, sorted: seq<Doc>, doc: Doc, i: nat)
    requires Ordered(sorters, sorted) && i < |sorted|
    ensures DocOrder(sorters, sorted[i], doc) > 0 <==> i >= FirstAfter(sorters, sorted, doc)
    ensures DocOrder(sorters, sorted[i], doc) < 0 <==> i < FirstNotBefore(sorters, sorted, doc)
  {
    hide *;
    var after, at := FirstAfter(sorters, sorted, doc), FirstNotBefore(sorters, sorted, doc);
    assert i < after ==> DocOrder(sorters, sorted[i], doc) <= 0;
    assert i < at ==> DocOrder(sorters, sorted[i], doc) < 0;
    if i > after {
      OrderedPair(sorters, sorted, after, i);
      AboveStays(sorters, doc, sorted[after], sorted[i]);
    }
    if i > at {
      OrderedPair(sorters, sorted, at, i);
      AboveStays(sorters, doc, sorted[at], sorted[i]);
    }
  }

  lemma OrderedPair(sorters: seq<Sorter>, sorted: seq<Doc>, i: nat, j: nat)
    requires Ordered(sorters, sorted) && i < j < |sorted|
    ensures DocOrder(sorters, sorted[i], sorted[j]) < 0
  {
    hide DocOrder;
  }

  lemma AboveStays(sorters: seq<Sorter>, doc: Doc, low: Doc, high: Doc)
    requires DocOrder(sorters, low, high) < 0 && DocOrder(sorters, low, doc) >= 0
    ensures DocOrder(sorters, high, doc) > 0
  {
    hide DocOrder;
    DocOrderTotal(sorters, doc, low);
    DocOrderTotal(sorters, doc, high);
    DocOrderTransitive(sorters, doc, low, high);
  }

  lemma WholeWalk(source: seq<Doc>, name: IndexName, collection: Text, ascending: bool, sources: seq<Doc>)
    requires IsIndex(source, name, collection, sources)
    ensures CursorWalk(name, collection, source, Whole(collection), ascending) == InOrder(source, ascending)
  {
    hide KeyOrder, KeyOf, CleanFor;
    forall i | 0 <= i < |source|
      ensures Keyed(name, collection, Whole(collection), source[i])
    {
      KeyInside(name, collection, source[i]);
    }
    MatchingSlice(name, collection, source, Whole(collection), 0, |source|);
    assert source[0..|source|] == source;
  }

  lemma BoundaryOfMember(sorters: seq<Sorter>, sorted: seq<Doc>, i: nat)
    requires Ordered(sorters, sorted) && i < |sorted|
    ensures FirstAfter(sorters, sorted, sorted[i]) == i + 1 && FirstNotBefore(sorters, sorted, sorted[i]) == i
  {
    hide DocOrder;
    forall k | 0 <= k < |sorted|
      ensures DocOrder(sorters, sorted[k], sorted[i]) <= 0 <==> k < i + 1
      ensures DocOrder(sorters, sorted[k], sorted[i]) < 0 <==> k < i
    {
      DocOrderTotal(sorters, sorted[k], sorted[i]);
    }
    FirstAfterIs(sorters, sorted, sorted[i], i + 1);
    FirstNotBeforeIs(sorters, sorted, sorted[i], i);
  }

  // --- Answers ---

  /** A page; nothing, when no index or count exists yet; or a refused key range. */
  datatype Answer = Missing | DataError | Found(page: Page)

  /** What `queryDocs` answers a plan over the sorted collection. */
  function Expected(plan: Plan, sorted: seq<Doc>): Page
    requires plan.limit > 0
  {
    var (start, end) := Window(plan.sorters, sorted, plan.limit, plan.after, plan.before);
    if start < end then PageAt(plan.sorters, sorted, start, end) else Page([], |sorted|, 0, None, None)
  }

  function PositionOf(plan: Plan): Option<Position> {
    if plan.after.Some? then plan.after else plan.before
  }

  /** The index a cursor carries, when it carries one, is still where its document sorts. */
  predicate IndexCurrent(plan: Plan, sorted: seq<Doc>) {
    var position := PositionOf(plan);
    position.Some? && position.value.index.Some? ==>
      if plan.after.Some? then position.value.index.value + 1 == FirstAfter(plan.sorters, sorted, position.value.doc)
      else position.value.index.value == FirstNotBefore(plan.sorters, sorted, position.value.doc)
  }

  predicate SameLink(a: Option<Link>, b: Option<Link>) {
    a.Some? == b.Some? && (a.Some? ==> a.value.cursor.(index := None) == b.value.cursor.(index := None))
  }

  /** The same documents, total and neighbours; only counts and cursor indexes may differ. */
  predicate SamePage(a: Page, b: Page) {
    a.documents == b.documents && a.total == b.total && a.current == b.current && SameLink(a.next, b.next)
      && SameLink(a.prev, b.prev)
  }

  predicate GoodPlan(plan: Plan) {
    && plan.limit > 0
    && plan.name != Some([ID])
    && plan.sorters == SortersFor(plan.name, plan.ascending)
    && (plan.name.None? ==> !plan.ascending)
    && (plan.after.None? || plan.before.None?)
    && (PositionOf(plan).Some? ==> CleanFor(plan.name, PositionOf(plan).value.doc))
  }

  /** The conditions a plan skips leave every document. */
  ghost predicate AllSought(filters: seq<Filter>, docs: seq<Doc>) {
    PlanFor(filters).Some? ==> forall d <- docs :: d in Sought(docs, filters)
  }

  // --- The storage of one collection ---

  class LivequeryIndexedDBStorage {
    const collection: Text
    var rows: map<Text, Doc>
    /** The count row, once the first scan of the collection wrote it. */
    var count: Option<int>
    var indexes: set<IndexName>

    constructor (collection: Text)
      ensures rows == map[] && count.None? && indexes == {} && this.collection == collection
    {
      this.collection, rows, count, indexes := collection, map[], None, {};
    }

    predicate CountExact() reads this {
      count.Some? ==> count.value == |rows|
    }

    predicate HasOdd(name: IndexName) reads this {
      exists id <- rows :: KeyOf(name, collection, rows[id]).None?
    }

    /** The index is missing, the rows are not counted, or some have no key in it. */
    predicate Unready(name: IndexName) reads this {
      name !in indexes || count.None? || HasOdd(name)
    }

    method Add(document: Doc, generated: Text) returns (doc: Doc)
      requires generated != []
      modifies this`rows, this`count
      ensures doc == document.(id := if document.id == [] then generated else document.id)
      ensures rows == old(rows)[doc.id := doc]
      ensures old(CountExact()) ==> CountExact()
      ensures count.Some? == old(count.Some?)
    {
      doc := document.(id := if document.id == [] then generated else document.id);
      var existing := doc.id in rows;
      rows := rows[doc.id := doc];
      if !existing {
        Count(1);
      }
    }

    /** Merge fields into a row, moving it when they carry another id. */
    method Update(id: Text, fields: seq<Property>, newId: Option<Text>) returns (next: Option<Doc>)
      requires newId.Some? ==> newId.value != []
      modifies this`rows
      ensures id !in old(rows) ==> next.None? && rows == old(rows)
      ensures id in old(rows) ==>
                && next == Some(Doc(newId.GetOr(id), Merged(old(rows)[id].fields, fields)))
                && rows == (old(rows) - {id})[newId.GetOr(id) := next.value]
      // The count is not touched: it stays exact unless the move lands on another row.
      ensures old(CountExact()) && count.Some? ==>
                (CountExact() <==> !(id in old(rows) && newId.GetOr(id) != id && newId.GetOr(id) in old(rows)))
    {
      if id !in rows {
        return None;
      }
      var row := rows[id];
      var nextId := if newId.Some? && newId.value != id then newId.value else id;
      next := Some(Doc(nextId, Merged(row.fields, fields)));
      ghost var before := rows;
      if nextId != id {
        rows := rows - {id};
        assert |rows| == |before| - 1 by { RemoveSize(before, id); }
        InsertSize(rows, nextId, next.value);
      } else {
        InsertSize(rows, nextId, next.value);
        assert rows[nextId := next.value] == (rows - {id})[nextId := next.value];
      }
      rows := rows[nextId := next.value];
    }

    method Delete(id: Text) returns (removed: Option<Doc>)
      modifies this`rows, this`count
      ensures removed == if id in old(rows) then Some(old(rows)[id]) else None
      ensures rows == old(rows) - {id}
      ensures old(CountExact()) ==> CountExact()
      ensures count.Some? == old(count.Some?)
    {
      if id !in rows {
        assert rows - {id} == rows;
        return None;
      }
      removed := Some(rows[id]);
      RemoveSize(rows, id);
      rows := rows - {id};
      Count(-1);
    }

    method Flush()
      modifies this`rows, this`count
      ensures rows == map[] && count.None? && CountExact()
    {
      rows, count := map[], None;
    }

    /** The first scan of a collection counts it, in one transaction. */
    method StartCounting()
      modifies this`count
      ensures count == if old(count).None? then Some(|rows|) else old(count)
    {
      if count.None? {
        count := Some(|rows|);
      }
    }

    method Count(delta: int)
      modifies this`count
      ensures count == if old(count).Some? then Some(Lists.Max(0, old(count).value + delta)) else None
    {
      if count.Some? {
        count := Some(Lists.Max(0, count.value + delta));
      }
    }

    /** Read the walk up to one more than the page: whether another page follows in this direction. */
    static method ReadPage(walk: seq<Doc>, limit: int) returns (documents: seq<Doc>, more: bool)
      requires limit > 0
      ensures more <==> |walk| > limit
      ensures documents == if |walk| > limit then walk[..limit] else walk
    {
      var walked := [];
      while |walked| < |walk| && |walked| <= limit
        invariant |walked| <= |walk| && |walked| <= limit + 1 && walked == walk[..|walked|]
      {
        walked := walked + [walk[|walked|]];
      }
      more := |walked| > limit;
      documents := if more then walked[..limit] else walked;
    }

    /**
     * A page of the collection, from an index when one can answer, else from every row. It is the
     * page of `queryDocs` whatever the index, direction and cursor, if the conditions the plan skipped
     * leave every document; the cursor's own index only matters to the counts. A cursor on an array or
     * object makes the database refuse the range.
     */
    method Query(filters: seq<Filter>, source: seq<Doc>, sources: seq<Doc>, indexAfter: int)
        returns (page: Option<Page>)
      requires CountExact() && GetAll(sources, rows)
      requires var plan := PlanFor(filters);
               plan.Some? ==>
                 && (forall f <- filters :: !f.NullSort?) && plan.value.name != Some([ID])
                 && (PositionOf(plan.value).Some? ==> CleanFor(plan.value.name, PositionOf(plan.value).value.doc))
                 && (!HasOdd(plan.value.name) ==> IsIndex(source, plan.value.name, collection, sources))
      modifies this`count, this`indexes
      // A plan no index can answer yet reads every row, starts the count and, of many rows, an index.
      ensures var scans := PlanFor(filters).Some? && old(Unready(PlanFor(filters).value.name));
              && CountExact() && count == (if scans && old(count).None? then Some(|rows|) else old(count))
              && indexes == old(indexes)
                   + (if scans && |sources| >= indexAfter then {None, PlanFor(filters).value.name} else {})
              && (page.None? <==>
                    PlanFor(filters).Some? && !scans && PositionOf(PlanFor(filters).value).Some?
                    && KeyOf(PlanFor(filters).value.name, collection,
                             PositionOf(PlanFor(filters).value).value.doc).None?)
      ensures page.Some? && (PlanFor(filters).Some? ==> FilterDocs(sources, filters) == sources)
              ==> SamePage(page.value, QueryDocs(sources, filters))
      ensures page.Some? && (PlanFor(filters).Some? ==>
          && FilterDocs(sources, filters) == sources
          && IndexCurrent(PlanFor(filters).value, SortDocs(SortersOf(filters), sources)))
              ==> page.value == QueryDocs(sources, filters)
      // It is a page of the documents asked for.
      ensures page.Some? && OneEach(filters) && AllSought(filters, sources) ==> Answers(page.value, sources, filters)
    {
      if OneEach(filters) { AllAnswer(sources, filters); }
      hide IsIndex, Indexable, PlanOn, KeyOf, IndexCurrent, SortDocs, QueryDocs, SamePage, CleanFor, Expected,
        RequestOf, SortersOf, PathsOf, FilterDocs, Sought, Answers, OneEach, PlanFor, PositionOf, AllSought;
      var plan := PlanOf(filters);
      if plan.Some? {
        PlanIsGood(filters, sources);
        var answer := IndexedPage(plan.value, source, sources);
        match answer {
          case Found(found) => return Some(found);
          case DataError => return None;
          case Missing =>
        }
        StartCounting();
        if |sources| >= indexAfter {
          indexes := indexes + {None, plan.value.name};
        }
      }
      SamePageSelf(QueryDocs(sources, filters));
      return Some(QueryDocs(sources, filters));
    }

    /** One page read from an index. */
    method IndexedPage(plan: Plan, source: seq<Doc>, ghost sources: seq<Doc>) returns (answer: Answer)
      requires GoodPlan(plan) && CountExact() && GetAll(sources, rows)
      requires !HasOdd(plan.name) ==> IsIndex(source, plan.name, collection, sources)
      ensures answer.Missing? <==> Unready(plan.name)
      ensures answer.DataError? <==>
                !answer.Missing? && PositionOf(plan).Some?
                  && KeyOf(plan.name, collection, PositionOf(plan).value.doc).None?
      ensures answer.Found? ==>
                var expected := Expected(plan, SortDocs(plan.sorters, sources));
                && SamePage(answer.page, expected)
                && (IndexCurrent(plan, SortDocs(plan.sorters, sources)) ==> answer.page == expected)
    {
      assert count.Some? ==> count.value == |sources|;
      assert DistinctIds(sources);
      PlanFacts(plan);
      hide *;
      if plan.name !in indexes {
        return Missing;
      }
      if count.None? || HasOdd(plan.name) {
        return Missing;
      }
      var position := PositionOf(plan);
      var ascending := plan.ascending != plan.before.Some?;
      var range := Whole(collection);
      if position.Some? {
        var key := KeyOf(plan.name, collection, position.value.doc);
        if key.None? {
          return DataError;
        }
        range := Beyond(collection, key.value, ascending);
      }
      var walk := CursorWalk(plan.name, collection, source, range, ascending);
      var documents, more := ReadPage(walk, plan.limit);
      if plan.before.Some? {
        documents := Lists.Reverse(documents);
      }
      PageDocuments(plan, collection, source, sources, walk, documents);
      ghost var (start, end) := Window(plan.sorters, SortDocs(plan.sorters, sources), plan.limit, plan.after,
          plan.before);
      var page := Assemble(plan, source, sources, start, end, documents, more, count.value);
      return Found(page);
    }

    /** The page's links: its neighbours on either side and where it starts. */
    method Assemble(plan: Plan, source: seq<Doc>, ghost sources: seq<Doc>, ghost start: nat, ghost end: nat,
                    documents: seq<Doc>, more: bool, total: int)
      returns (page: Page)
      requires GoodPlan(plan) && DistinctIds(sources) && IsIndex(source, plan.name, collection, sources)
      requires Window(plan.sorters, SortDocs(plan.sorters, sources), plan.limit, plan.after, plan.before)
          == (start, end)
      requires |SortDocs(plan.sorters, sources)| == |sources| == total && start <= end
      requires documents == SortDocs(plan.sorters, sources)[start..end]
      requires more <==> if plan.before.Some? then start > 0 else end < total
      ensures SamePage(page, Expected(plan, SortDocs(plan.sorters, sources)))
      ensures IndexCurrent(plan, SortDocs(plan.sorters, sources)) ==>
          page == Expected(plan, SortDocs(plan.sorters, sources))
    {
      PlanFacts(plan);
      hide *;
      ghost var sorted := SortDocs(plan.sorters, sources);
      if documents == [] {
        EmptyExpected(plan, sorted);
        return Page([], total, 0, None, None);
      }
      var hasNext, hasPrev, firstIndex := LookAround(plan, source, sources, start, end, documents, more);
      page := BuildPage(plan, documents, total, hasNext, hasPrev, firstIndex);
      StartIs(plan, sorted, start, end, firstIndex, hasPrev);
      PageMatches(plan, sorted, start, end, firstIndex, page);
    }

    /** What lies on the other side of the page, one key of it, and where the page starts. */
    method LookAround(plan: Plan, source: seq<Doc>, ghost sources: seq<Doc>, ghost start: nat, ghost end: nat,
                      documents: seq<Doc>, more: bool)
      returns (hasNext: bool, hasPrev: bool, firstIndex: int)
      requires GoodPlan(plan) && DistinctIds(sources) && IsIndex(source, plan.name, collection, sources)
      requires |SortDocs(plan.sorters, sources)| == |sources| && start < end <= |sources|
      requires documents == SortDocs(plan.sorters, sources)[start..end]
      requires more <==> if plan.before.Some? then start > 0 else end < |sources|
      ensures (hasNext <==> end < |sources|) && (hasPrev <==> start > 0)
      ensures firstIndex == PageStart(PositionOf(plan), plan.after.Some?, end - start, hasPrev, start)
    {
      hide *;
      var first, last := documents[0], documents[|documents| - 1];
      PageEdges(plan, collection, source, sources, documents, start, end);
      var ascending := plan.ascending != plan.before.Some?;
      var edge := if plan.before.Some? then last else first;
      var other := CursorWalk(plan.name, collection, source,
          Beyond(collection, KeyOf(plan.name, collection, edge).value, !ascending), !ascending);
      hasNext := if plan.before.Some? then other != [] else more;
      hasPrev := if plan.before.Some? then more else other != [];
      var counted := CursorWalk(plan.name, collection, source,
          Beyond(collection, KeyOf(plan.name, collection, first).value, !plan.ascending), !plan.ascending);
      firstIndex := PageStart(PositionOf(plan), plan.after.Some?, |documents|, hasPrev, |counted|);
    }
  }

  function BuildPage(plan: Plan, documents: seq<Doc>, total: int, hasNext: bool, hasPrev: bool, firstIndex: int): Page
    requires documents != []
  {
    var n := |documents|;
    Page(documents, total, n,
         if hasNext
             then Some(Link(Lists.Max(1, total - firstIndex - n),
             Encode(documents[n - 1], plan.sorters, Some(firstIndex + n - 1)))) else None,
         if hasPrev then Some(Link(Lists.Max(1, firstIndex), Encode(documents[0], plan.sorters, Some(firstIndex))))
             else None)
  }

  /** Every cursor handed out for a state of the collection is current on that state. */
  lemma MintedCursorIsCurrent(plan: Plan, sorted: seq<Doc>, i: nat)
    requires Ordered(plan.sorters, sorted) && i < |sorted|
    requires PositionOf(plan) == Decoded(Encoded(Encode(sorted[i], plan.sorters, Some(i))))
    ensures IndexCurrent(plan, sorted)
  {
    hide Encode, Decoded, FirstAfter, FirstNotBefore;
    CursorPoints(plan.sorters, sorted, i, Some(i));
    CursorRoundTrip(sorted[i], plan.sorters, Some(i));
  }

  lemma SamePageSelf(page: Page)
    ensures SamePage(page, page)
  {
  }

  /** A plan asks for exactly the page `queryDocs` cuts from the sorted collection. */
  lemma PlanIsGood(filters: seq<Filter>, sources: seq<Doc>)
    requires PlanFor(filters).Some? && DistinctIds(sources) && forall f <- filters :: !f.NullSort?
    ensures var plan := PlanFor(filters).value;
            && plan.limit > 0 && plan.sorters == SortersFor(plan.name, plan.ascending) == SortersOf(filters)
            && (plan.name.None? ==> !plan.ascending) && (plan.after.None? || plan.before.None?)
            && (FilterDocs(sources, filters) == sources ==>
                Expected(plan, SortDocs(plan.sorters, sources)) == QueryDocs(sources, filters))
  {
    hide SortDocs, Decoded, Paginated, Window;
    var plan := PlanFor(filters).value;
    PathsSorted(filters);
    SortDocsOrdered(plan.sorters, sources);
    PaginatedIsWindow(plan.sorters, SortDocs(plan.sorters, sources), RequestOf(filters));
  }

  /**
   * A condition on `null` is skipped by the plan but not by `queryDocs`: an indexed page is still
   * the right one exactly when every document passes the conditions anyway.
   */
  lemma NullConditions(filters: seq<Filter>, sources: seq<Doc>)
    requires PlanFor(filters).Some? && DistinctIds(sources) && forall f <- filters :: !f.NullSort?
    ensures SamePage(Expected(PlanFor(filters).value, SortDocs(SortersOf(filters), sources)),
        QueryDocs(sources, filters))
            <==> FilterDocs(sources, filters) == sources
  {
    hide Decoded, Paginated, Window;
    var plan, matching := PlanFor(filters).value, FilterDocs(sources, filters);
    PlanIsGood(filters, sources);
    FilterDistinct(sources, filters);
    FilterWithin(sources, filters);
    SortDocsOrdered(plan.sorters, sources);
    SortDocsOrdered(plan.sorters, matching);
    SameSize(SortDocs(plan.sorters, sources), sources);
    SameSize(SortDocs(plan.sorters, matching), matching);
    PaginatedIsWindow(plan.sorters, SortDocs(plan.sorters, sources), RequestOf(filters));
    PaginatedIsWindow(plan.sorters, SortDocs(plan.sorters, matching), RequestOf(filters));
  }

  lemma {:induction false} FilterDistinct(docs: seq<Doc>, filters: seq<Filter>)
    requires DistinctIds(docs)
    ensures DistinctIds(FilterDocs(docs, filters))
    decreases |docs|
  {
    if docs != [] {
      hide Passes, CanonicalId;
      var rest := docs[1..];
      assert forall i :: 0 <= i < |rest| ==> rest[i] == docs[i + 1];
      FilterDistinct(rest, filters);
      FilterWithin(rest, filters);
      FirstIsNew(docs[0], rest, FilterDocs(rest, filters));
    }
  }

  lemma FirstIsNew(first: Doc, rest: seq<Doc>, some: seq<Doc>)
    requires CanonicalId(first.id) && (forall i :: 0 <= i < |rest| ==> rest[i].id != first.id)
    requires DistinctIds(some) && forall d <- some :: d in rest
    ensures DistinctIds([first] + some)
  {
    hide CanonicalId;
    var all := [first] + some;
    forall i, j | 0 <= i < j < |all|
      ensures all[i].id != all[j].id
    {
      assert all[j] in some;
      if i > 0 { assert all[i] == some[i - 1] && all[j] == some[j - 1]; }
    }
  }

  lemma {:induction false} FilterWithin(docs: seq<Doc>, filters: seq<Filter>)
    ensures |FilterDocs(docs, filters)| <= |docs|
    ensures |FilterDocs(docs, filters)| == |docs| ==> FilterDocs(docs, filters) == docs
    ensures forall d <- FilterDocs(docs, filters) :: d in docs
    decreases |docs|
  {
    if docs != [] {
      hide Passes;
      FilterWithin(docs[1..], filters);
      assert docs == [docs[0]] + docs[1..];
    }
  }

  // --- What a query answers ---

  /**
   * Whatever the documents, conditions, sort entries, limit and cursors: the answer is a page of the documents
   * asked for.
   */
  lemma QueryAnswers(docs: seq<Doc>, filters: seq<Filter>)
    requires DistinctIds(docs) && OneEach(filters)
    ensures Answers(QueryDocs(docs, filters), docs, filters)
  {
    var sorters, request, matching := SortersOf(filters), RequestOf(filters), FilterDocs(docs, filters);
    var sorted := if sorters != [] || request.limit.Some? then SortDocs(sorters, matching) else matching;
    FilterDistinct(docs, filters);
    FilterDocsAre(docs, filters);
    DistinctDocs(matching);
    SortDocsOrdered(sorters, matching);
    OrderedDistinct(sorters, SortDocs(sorters, matching));
    SameMembers(SortDocs(sorters, matching), matching);
    DistinctSize(sorted, Sought(docs, filters));
    SortedAsAsked(sorted, filters);
    PageOf(sorters, sorted, request);
    RequestIs(filters);
    hide SortersOf, RequestOf, FilterDocs, Sought, SortDocs, Paginated, Ordered, DistinctIds, NotAfter, Scalar, IsSort,
      Answers, OneEach, Unlimited, DocOrder, Decoded, BeyondCursors;
    var page := QueryDocs(docs, filters);
    if !Unlimited(filters) {
      LimitedRequest(filters);
      CursorsRespected(sorters, sorted, request);
    }
    BeyondToo(page, filters, sorters, request);
    var start: nat, end: nat :| start <= end <= |sorted| && page.documents == sorted[start..end];
    SliceAnswers(page, sorted, start, end, docs, filters, request);
  }

  lemma LimitedRequest(filters: seq<Filter>)
    requires !Unlimited(filters) && OneEach(filters)
    ensures RequestOf(filters).limit.Some? && RequestOf(filters).limit.value > 0
  {
    RequestIs(filters);
    var f :| f in filters && f.Limit? && f.n > 0;
    hide RequestOf;
  }

  /** Every document of a page is beyond the cursors it was asked with. */
  lemma CursorsRespected(sorters: seq<Sorter>, sorted: seq<Doc>, request: Request)
    requires Ordered(sorters, sorted) && request.limit.Some? && request.limit.value > 0
    ensures forall d <- Paginated(sorters, sorted, request).documents ::
              && (Position_(request.after).Some? ==> DocOrder(sorters, d, Position_(request.after).value.doc) > 0)
              && (Position_(request.before).Some? ==> DocOrder(sorters, d, Position_(request.before).value.doc) < 0)
  {
    PaginatedIsWindow(sorters, sorted, request);
    hide DocOrder, FirstAfter, FirstNotBefore, Encode, Decoded, Paginated, Position_, Ordered;
    var (start, end) := Window(sorters, sorted, request.limit.value, Position_(request.after),
        Position_(request.before));
    forall k | start <= k < end
      ensures Position_(request.after).Some? ==>
          DocOrder(sorters, sorted[k], Position_(request.after).value.doc) > 0
      ensures Position_(request.before).Some? ==>
          DocOrder(sorters, sorted[k], Position_(request.before).value.doc) < 0
    {
      if Position_(request.after).Some? {
        BoundaryHolds(sorters, sorted, Position_(request.after).value.doc, k);
      }
      if Position_(request.before).Some? {
        BoundaryHolds(sorters, sorted, Position_(request.before).value.doc, k);
      }
    }
  }

  lemma BeyondToo(page: Page, filters: seq<Filter>, sorters: seq<Sorter>, request: Request)
    requires sorters == SortersOf(filters)
    requires forall f <- filters :: (f.After? ==> request.after == Some(f.token))
               && (f.Before? ==> request.before == Some(f.token))
    requires !Unlimited(filters) ==> forall d <- page.documents ::
               && (Position_(request.after).Some? ==> DocOrder(sorters, d, Position_(request.after).value.doc) > 0)
               && (Position_(request.before).Some? ==> DocOrder(sorters, d, Position_(request.before).value.doc) < 0)
    ensures BeyondCursors(page.documents, filters)
  {
    hide DocOrder, Decoded, Unlimited, SortersOf;
  }

  lemma SliceAnswers(page: Page, sorted: seq<Doc>, start: nat, end: nat, docs: seq<Doc>, filters: seq<Filter>,
      request: Request)
    requires start <= end <= |sorted| && page.documents == sorted[start..end]
    requires page.total == |sorted| == |Sought(docs, filters)| && page.current == |page.documents|
    requires forall d :: d in sorted <==> d in Sought(docs, filters)
    requires forall i, j :: 0 <= i < j < |sorted| ==> sorted[i] != sorted[j]
    requires InAskedOrder(sorted, filters) && BeyondCursors(page.documents, filters)
    requires (forall f <- filters :: f.Limit? ==> request.limit == Some(f.n))
        && ((forall g <- filters :: !g.After? && !g.Before?) ==> request.after.None? && request.before.None?)
        && (Unlimited(filters) ==> request.limit.None? || request.limit.value <= 0)
    requires request.limit.None? || request.limit.value <= 0 ==> page.documents == sorted
    requires request.limit.Some? && request.limit.value > 0 ==>
               && |page.documents| <= request.limit.value
               && (request.after.None? && request.before.None? ==>
                     |page.documents| == request.limit.value || page.documents == sorted)
    ensures Answers(page, docs, filters)
  {
    SliceInOrder(sorted, start, end, filters);
    SliceDistinct(sorted, start, end);
    hide InAskedOrder, BeyondCursors, Sought, Unlimited;
    assert forall d <- page.documents :: d in sorted;
  }

  lemma SliceDistinct(sorted: seq<Doc>, start: nat, end: nat)
    requires start <= end <= |sorted|
    requires forall i, j :: 0 <= i < j < |sorted| ==> sorted[i] != sorted[j]
    ensures forall i, j :: 0 <= i < j < end - start ==> sorted[start..end][i] != sorted[start..end][j]
  {
    var slice := sorted[start..end];
    assert forall i :: 0 <= i < |slice| ==> slice[i] == sorted[start + i];
  }

  lemma SliceInOrder(sorted: seq<Doc>, start: nat, end: nat, filters: seq<Filter>)
    requires start <= end <= |sorted| && InAskedOrder(sorted, filters)
    ensures InAskedOrder(sorted[start..end], filters)
  {
    hide NotAfter;
    var docs := sorted[start..end];
    forall k | 0 <= k < |filters| && IsSort(filters[k]) && (forall i :: 0 <= i < k ==> !IsSort(filters[i]))
      ensures forall i, j :: 0 <= i < j < |docs| ==>
                NotAfter(docs[i], docs[j], filters[k].path, filters[k].Sort? && filters[k].ascending)
    {
      forall i, j | 0 <= i < j < |docs|
        ensures NotAfter(docs[i], docs[j], filters[k].path, filters[k].Sort? && filters[k].ascending)
      {
        assert docs[i] == sorted[start + i] && docs[j] == sorted[start + j];
      }
    }
  }

  /** So is any page with the same documents and total, and nothing is filtered when all are asked for. */
  lemma AllAnswer(docs: seq<Doc>, filters: seq<Filter>)
    requires DistinctIds(docs) && OneEach(filters)
    ensures forall page :: SamePage(page, QueryDocs(docs, filters)) ==> Answers(page, docs, filters)
    ensures (forall d <- docs :: d in Sought(docs, filters)) ==> FilterDocs(docs, filters) == docs
  {
    QueryAnswers(docs, filters);
    FilterDocsAre(docs, filters);
    FilterDistinct(docs, filters);
    FilterWithin(docs, filters);
    DistinctDocs(docs);
    DistinctDocs(FilterDocs(docs, filters));
    hide QueryDocs, Sought, InAskedOrder, BeyondCursors, Unlimited, FilterDocs;
    if forall d <- docs :: d in Sought(docs, filters) {
      var all := set d | d in docs;
      DistinctSize(docs, all);
      DistinctSize(FilterDocs(docs, filters), all);
    }
  }

  lemma DistinctDocs(docs: seq<Doc>)
    requires DistinctIds(docs)
    ensures forall i, j :: 0 <= i < j < |docs| ==> docs[i] != docs[j]
  {
    hide CanonicalId;
  }

  lemma SameMembers(a: seq<Doc>, b: seq<Doc>)
    requires multiset(a) == multiset(b)
    ensures forall d :: d in a <==> d in b
  {
    assert forall d :: d in a <==> d in multiset(a);
    assert forall d :: d in b <==> d in multiset(b);
  }

  lemma SortedAsAsked(sorted: seq<Doc>, filters: seq<Filter>)
    requires SortersOf(filters) != [] ==> Ordered(SortersOf(filters), sorted)
    ensures InAskedOrder(sorted, filters)
  {
    forall k | 0 <= k < |filters| && IsSort(filters[k]) && (forall i :: 0 <= i < k ==> !IsSort(filters[i]))
      ensures forall i, j :: 0 <= i < j < |sorted| ==>
                NotAfter(sorted[i], sorted[j], filters[k].path, filters[k].Sort? && filters[k].ascending)
    {
      FirstSorter(filters, k);
      hide NotAfter, DocOrder, SortersOf;
      forall i, j | 0 <= i < j < |sorted|
        ensures NotAfter(sorted[i], sorted[j], filters[k].path, filters[k].Sort? && filters[k].ascending)
      {
        OrderedNotAfter(SortersOf(filters), sorted[i], sorted[j]);
      }
    }
  }

  /** A page is part of what is cut; all of it without a limit, and without a cursor as much as the limit allows. */
  lemma PageOf(sorters: seq<Sorter>, sorted: seq<Doc>, request: Request)
    ensures var page := Paginated(sorters, sorted, request);
            && page.total == |sorted| && page.current == |page.documents|
            && (request.limit.None? || request.limit.value <= 0 ==> page.documents == sorted)
            && (exists start: nat, end: nat :: start <= end <= |sorted| && page.documents == sorted[start..end])
            && (request.limit.Some? && request.limit.value > 0 ==> |page.documents| <= request.limit.value)
            && (request.limit.Some? && request.limit.value > 0 && request.after.None? && request.before.None? ==>
                  |page.documents| == request.limit.value || page.documents == sorted)
  {
    hide Encode, Decoded, FirstAfter, FirstNotBefore, DocOrder, IndexOf;
    assert sorted[0..|sorted|] == sorted && sorted[0..0] == [];
  }

  // --- An index on `id` ---

  /** Within one kind of id the index and the documents agree; it is across kinds that they may not. */
  predicate KindsInOrder(docs: seq<Doc>) {
    forall a, b :: a in docs && b in docs && IdRank(a.id).0 < IdRank(b.id).0 ==> StringOrder(a.id, b.id) < 0
  }

  /** The index on `id` holds plain strings; documents sort by the kind of id first. */
  lemma IdIndexPair(a: Doc, b: Doc, collection: Text, ascending: bool)
    requires CanonicalId(a.id) && CanonicalId(b.id) && WellFormed(a.id) && WellFormed(b.id)
    ensures KeyOf(Some([ID]), collection, a).Some? && KeyOf(Some([ID]), collection, b).Some?
    ensures var order := KeyOrder(KeyOf(Some([ID]), collection, a).value, KeyOf(Some([ID]), collection, b).value);
            a.id != b.id ==> order == StringOrder(a.id, b.id) != 0
    ensures DocOrder(SortersFor(Some([ID]), ascending), a, b) == Signed(IdOrder(a.id, b.id), ascending)
  {
    var x, y := KeyOf(Some([ID]), collection, a).value.items, KeyOf(Some([ID]), collection, b).value.items;
    assert Get(a, [ID]) == Some(Str(a.id)) && Get(b, [ID]) == Some(Str(b.id));
    SeqOrderZero(collection, collection);
    KeysOrderPair(x, y);
    KeysOrderPair(x[1..], y[1..]);
    KeysOrderPair(x[1].items, y[1].items);
    KeysOrderPair(x[1].items[1..], y[1].items[1..]);
    RekeyedOrder(a.id, b.id);
    StringOrderTotal(a.id, b.id);
    var id := Sorter([ID], ascending);
    assert WithTie(SortersFor(Some([ID]), ascending)) == [id, id];
    assert [id, id][1..] == [id];
    OrderByOne(id, a, b);
  }

  /** The documents of a collection in the order of an index on `id`. */
  ghost predicate IsIdIndex(source: seq<Doc>, collection: Text, sources: seq<Doc>) {
    && multiset(source) == multiset(sources) && DistinctIds(sources)
    && (forall d <- source :: WellFormed(d.id) && CanonicalId(d.id) && KeyOf(Some([ID]), collection, d).Some?)
    && forall i, j :: 0 <= i < j < |source| ==>
         KeyOrder(KeyOf(Some([ID]), collection, source[i]).value, KeyOf(Some([ID]), collection, source[j]).value) < 0
  }

  /** The index on `id` gives the documents in their order exactly when no two kinds of id are out of order. */
  lemma IdIndexAgrees(source: seq<Doc>, collection: Text, ascending: bool, sources: seq<Doc>)
    requires IsIdIndex(source, collection, sources)
    ensures InOrder(source, ascending) == SortDocs(SortersFor(Some([ID]), ascending), sources) <==>
        KindsInOrder(sources)
  {
    var sorters := SortersFor(Some([ID]), ascending);
    SortDocsOrdered(sorters, sources);
    InOrderMultiset(source, ascending);
    SameKinds(source, sources);
    if KindsInOrder(source) {
      IdIndexOrdered(source, collection, ascending, sources);
      hide *;
      OrderedUnique(sorters, InOrder(source, ascending), SortDocs(sorters, sources));
    } else if InOrder(source, ascending) == SortDocs(sorters, sources) {
      var a, b :| a in source && b in source && IdRank(a.id).0 < IdRank(b.id).0 && StringOrder(a.id, b.id) >= 0;
      var i :| 0 <= i < |source| && source[i] == a;
      var j :| 0 <= j < |source| && source[j] == b;
      IdIndexBehind(source, collection, sources, i, j);
      IdIndexMisorders(source, collection, ascending, sources, i, j);
    }
  }

  lemma SameKinds(source: seq<Doc>, sources: seq<Doc>)
    requires multiset(source) == multiset(sources)
    ensures KindsInOrder(source) <==> KindsInOrder(sources)
  {
    forall d
      ensures d in source <==> d in sources
    {
      assert d in source <==> d in multiset(source);
      assert d in sources <==> d in multiset(sources);
    }
  }

  lemma IdIndexAt(source: seq<Doc>, collection: Text, sources: seq<Doc>, ascending: bool, i: nat, j: nat)
    requires IsIdIndex(source, collection, sources) && i < j < |source|
    ensures source[i].id != source[j].id && StringOrder(source[i].id, source[j].id) < 0
    ensures DocOrder(SortersFor(Some([ID]), ascending), source[i], source[j])
        == Signed(IdOrder(source[i].id, source[j].id), ascending)
    ensures CanonicalId(source[i].id) && CanonicalId(source[j].id)
  {
    hide DocOrder, KeyOrder, KeyOf, CanonicalId, WellFormed, StringOrder;
    assert source[i] in source && source[j] in source;
    IdIndexPair(source[i], source[j], collection, ascending);
    IdIndexPair(source[i], source[i], collection, ascending);
    SameIdSameKey(source[i], source[j], collection);
    KeySelf(KeyOf(Some([ID]), collection, source[i]).value);
  }

  lemma SameIdSameKey(a: Doc, b: Doc, collection: Text)
    ensures a.id == b.id ==> KeyOf(Some([ID]), collection, a) == KeyOf(Some([ID]), collection, b)
  {
    assert Get(a, [ID]) == Some(Str(a.id)) && Get(b, [ID]) == Some(Str(b.id));
  }

  lemma IdIndexOrdered(source: seq<Doc>, collection: Text, ascending: bool, sources: seq<Doc>)
    requires IsIdIndex(source, collection, sources) && KindsInOrder(source)
    ensures Ordered(SortersFor(Some([ID]), ascending), InOrder(source, ascending))
  {
    var sorters, sorted := SortersFor(Some([ID]), ascending), InOrder(source, ascending);
    if source != [] { InOrderAt(source, ascending, 0); }
    forall i, j | 0 <= i < j < |sorted|
      ensures DocOrder(sorters, sorted[i], sorted[j]) < 0
    {
      IdIndexOrderedAt(source, collection, ascending, sources, i, j);
    }
    hide DocOrder, InOrder, IsIdIndex, KindsInOrder;
  }

  /** Two documents of the index, in the order the walk meets them. */
  lemma IdIndexPairOrdered(source: seq<Doc>, collection: Text, ascending: bool, sources: seq<Doc>, a: nat, b: nat)
    requires IsIdIndex(source, collection, sources) && KindsInOrder(source) && a < b < |source|
    ensures var sorters := SortersFor(Some([ID]), ascending);
            if ascending then DocOrder(sorters, source[a], source[b]) < 0
            else DocOrder(sorters, source[b], source[a]) < 0
  {
    IdIndexAt(source, collection, sources, ascending, a, b);
    IdsAgree(source, a, b);
    DocOrderTotal(SortersFor(Some([ID]), ascending), source[a], source[b]);
    hide *;
    SignedIs(IdOrder(source[a].id, source[b].id), ascending);
  }

  lemma IdIndexOrderedAt(source: seq<Doc>, collection: Text, ascending: bool, sources: seq<Doc>, i: nat, j: nat)
    requires IsIdIndex(source, collection, sources) && KindsInOrder(source)
    requires i < j < |InOrder(source, ascending)| == |source|
    ensures var sorted := InOrder(source, ascending);
            DocOrder(SortersFor(Some([ID]), ascending), sorted[i], sorted[j]) < 0
  {
    hide *;
    var n := |source|;
    var a, b := if ascending then i else n - 1 - j, if ascending then j else n - 1 - i;
    InOrderAt(source, ascending, a);
    InOrderAt(source, ascending, b);
    IdIndexPairOrdered(source, collection, ascending, sources, a, b);
  }

  /** Ids in the order of their texts, no kinds misplaced, are in the order of ids. */
  lemma IdsAgree(source: seq<Doc>, i: nat, j: nat)
    requires i < |source| && j < |source| && StringOrder(source[i].id, source[j].id) < 0
    requires CanonicalId(source[i].id) && CanonicalId(source[j].id) && KindsInOrder(source)
    ensures IdOrder(source[i].id, source[j].id) < 0
  {
    assert source[i] in source && source[j] in source;
    StringOrderTotal(source[i].id, source[j].id);
    hide StringOrder;
  }

  lemma IdIndexBehind(source: seq<Doc>, collection: Text, sources: seq<Doc>, i: nat, j: nat)
    requires IsIdIndex(source, collection, sources) && i < |source| && j < |source| && i != j
    requires StringOrder(source[i].id, source[j].id) >= 0
    ensures j < i
  {
    if i < j { IdIndexAt(source, collection, sources, true, i, j); }
  }

  /** Two ids the index misplaces are misplaced in the walk. */
  lemma IdIndexMisorders(source: seq<Doc>, collection: Text, ascending: bool, sources: seq<Doc>, i: nat, j: nat)
    requires IsIdIndex(source, collection, sources) && j < i < |source|
    requires IdRank(source[i].id).0 < IdRank(source[j].id).0
    ensures !Ordered(SortersFor(Some([ID]), ascending), InOrder(source, ascending))
  {
    hide *;
    var sorters, sorted, n := SortersFor(Some([ID]), ascending), InOrder(source, ascending), |source|;
    IdIndexAt(source, collection, sources, ascending, j, i);
    KindsDecide(source[i].id, source[j].id);
    SignedIs(IdOrder(source[j].id, source[i].id), ascending);
    DocOrderTotal(sorters, source[i], source[j]);
    InOrderAt(source, ascending, i);
    InOrderAt(source, ascending, j);
    if Ordered(sorters, sorted) {
      OrderedPair(sorters, sorted, if ascending then j else n - 1 - i, if ascending then i else n - 1 - j);
    }
  }

  lemma KindsDecide(a: Text, b: Text)
    requires IdRank(a).0 < IdRank(b).0
    ensures IdOrder(b, a) > 0
  {
  }

  // --- A null sort entry ---

  /** No two documents sort one way by their ids and the other way by the field. */
  predicate FieldFollowsId(sorter: Sorter, docs: seq<Doc>) {
    forall a, b :: a in docs && b in docs && IdOrder(a.id, b.id) < 0 ==> FieldOrder(sorter, a, b) <= 0
  }

  /**
   * A plan skips a null sort entry and reads the ids; `queryDocs` sorts by it, descending. The two orders
   * are one exactly when no two documents sort one way by the field and the other way by their ids.
   */
  lemma NullSortReadsIds(path: FieldPath, limit: int, sources: seq<Doc>)
    requires limit > 0 && DistinctIds(sources)
    ensures var filters := [NullSort(path), Limit(limit)];
            && PlanFor(filters) == Some(Plan(None, [Sorter(path, false)], false, limit, None, None))
            && SortersOf(filters) == [Sorter(path, false)]
    ensures SortDocs([], sources) == SortDocs([Sorter(path, false)], sources) <==>
        FieldFollowsId(Sorter(path, false), sources)
  {
    NullSortPlan(path, limit);
    var sorter := Sorter(path, false);
    SortDocsOrdered([], sources);
    SortDocsOrdered([sorter], sources);
    hide *;
    if SortDocs([], sources) == SortDocs([sorter], sources) {
      BothOrders(sorter, SortDocs([], sources), sources);
    }
    if FieldFollowsId(sorter, sources) {
      OneOrder(sorter, SortDocs([], sources), sources);
      OrderedUnique([sorter], SortDocs([], sources), SortDocs([sorter], sources));
    }
  }

  lemma BothOrders(sorter: Sorter, docs: seq<Doc>, sources: seq<Doc>)
    requires !sorter.ascending && Ordered([], docs) && Ordered([sorter], docs) && multiset(docs) == multiset(sources)
    ensures FieldFollowsId(sorter, sources)
  {
    hide DocOrder, FieldOrder, IdOrder;
    forall a, b | a in sources && b in sources && IdOrder(a.id, b.id) < 0
      ensures FieldOrder(sorter, a, b) <= 0
    {
      assert a in multiset(docs) && b in multiset(docs);
      var i :| 0 <= i < |docs| && docs[i] == a;
      var j :| 0 <= j < |docs| && docs[j] == b;
      FieldOrderOnId(sorter, a, b);
      FieldOrderOnId(sorter, b, a);
      if i > j { OrderedPair([sorter], docs, j, i); }
    }
  }

  lemma OneOrder(sorter: Sorter, docs: seq<Doc>, sources: seq<Doc>)
    requires !sorter.ascending && FieldFollowsId(sorter, sources) && Ordered([], docs)
        && multiset(docs) == multiset(sources)
    ensures Ordered([sorter], docs)
  {
    hide DocOrder, FieldOrder, IdOrder;
    forall i, j | 0 <= i < j < |docs|
      ensures DocOrder([sorter], docs[i], docs[j]) < 0
    {
      assert docs[i] in multiset(docs) && docs[j] in multiset(docs);
      OrderedPair([], docs, i, j);
      FieldOrderOnId(sorter, docs[i], docs[j]);
      FieldOrderOnId(sorter, docs[j], docs[i]);
    }
  }

  lemma NullSortPlan(path: FieldPath, limit: int)
    requires limit > 0
    ensures var filters := [NullSort(path), Limit(limit)];
            && PlanFor(filters) == Some(Plan(None, [Sorter(path, false)], false, limit, None, None))
            && SortersOf(filters) == [Sorter(path, false)]
  {
    var filters := [NullSort(path), Limit(limit)];
    FilterSteps(filters, 0, Request(None, None, None));
    FilterSteps(filters, 1, Request(None, None, None));
    NoFiltersLeft(filters, Request(Some(limit), None, None));
    assert filters[0..] == filters;
    assert SortersOf(filters) == [Sorter(path, false)] by {
      assert SortersOf(filters[1..][1..]) == [];
      assert SortersOf(filters[1..]) == [];
    }
  }

  /** Descending by a field and then by id. */
  lemma FieldOrderOnId(sorter: Sorter, a: Doc, b: Doc)
    requires !sorter.ascending
    ensures DocOrder([], a, b) == -IdOrder(a.id, b.id) && IdOrder(a.id, b.id) == -IdOrder(b.id, a.id)
    ensures FieldOrder(sorter, a, b) == -FieldOrder(sorter, b, a)
    ensures DocOrder([sorter], a, b)
        == if FieldOrder(sorter, a, b) != 0 then -FieldOrder(sorter, a, b) else -IdOrder(a.id, b.id)
  {
    var id := Sorter([ID], false);
    assert WithTie([]) == [id] && WithTie([sorter]) == [sorter, id] && [sorter, id][1..] == [id];
    OrderByOne(id, a, b);
    FieldOrderTotal(sorter, a, b);
    FieldOrderTotal(id, a, b);
  }

  /** Where the page starts: from the cursor's index, or counted when it has none. */
  function PageStart(position: Option<Position>, after: bool, length: int, hasPrev: bool, counted: int): int {
    if position.None? then 0
    else if position.value.index.None? then if hasPrev then counted else 0
    else if after then position.value.index.value + 1
    else Lists.Max(0, position.value.index.value - length)
  }

  /** Counted, or carried by a current cursor, the start is the page's place in the order. */
  lemma StartIs(plan: Plan, sorted: seq<Doc>, start: nat, end: nat, firstIndex: int, hasPrev: bool)
    requires plan.limit > 0 && (plan.after.None? || plan.before.None?) && start < end
    requires Window(plan.sorters, sorted, plan.limit, plan.after, plan.before) == (start, end)
    requires hasPrev <==> start > 0
    requires firstIndex == PageStart(PositionOf(plan), plan.after.Some?, end - start, hasPrev, start)
    ensures IndexCurrent(plan, sorted) ==> firstIndex == start
  {
    hide Window, FirstAfter, FirstNotBefore;
    WindowIs(plan, sorted);
  }

  lemma EmptyExpected(plan: Plan, sorted: seq<Doc>)
    requires plan.limit > 0
    requires var (start, end) := Window(plan.sorters, sorted, plan.limit, plan.after, plan.before); start >= end
    ensures Expected(plan, sorted) == Page([], |sorted|, 0, None, None)
    ensures SamePage(Page([], |sorted|, 0, None, None), Expected(plan, sorted))
  {
    hide Window;
  }

  /** The documents walked are the window of the sorted collection, and one more tells of a next page. */
  lemma PageDocuments(plan: Plan, collection: Text, source: seq<Doc>, sources: seq<Doc>, walk: seq<Doc>,
      documents: seq<Doc>)
    requires GoodPlan(plan) && DistinctIds(sources) && IsIndex(source, plan.name, collection, sources)
    requires PositionOf(plan).Some? ==> KeyOf(plan.name, collection, PositionOf(plan).value.doc).Some?
    requires var ascending := plan.ascending != plan.before.Some?;
             walk == CursorWalk(plan.name, collection, source,
                                if PositionOf(plan).None? then Whole(collection)
                                else Beyond(collection, KeyOf(plan.name, collection, PositionOf(plan).value.doc).value,
                                    ascending), ascending)
    requires documents == var taken := if |walk| > plan.limit then walk[..plan.limit] else walk;
                          if plan.before.Some? then Lists.Reverse(taken) else taken
    ensures var sorted := SortDocs(plan.sorters, sources);
            var (start, end) := Window(plan.sorters, sorted, plan.limit, plan.after, plan.before);
            && Ordered(plan.sorters, sorted) && |sorted| == |sources|
            && start <= end && documents == sorted[start..end]
            && (|walk| > plan.limit <==> if plan.before.Some? then start > 0 else end < |sorted|)
            && (start == end ==> documents == [])
  {
    hide *;
    PlanFacts(plan);
    IndexIsSorted(source, plan.name, collection, plan.ascending, sources);
    var sorted := SortDocs(plan.sorters, sources);
    WindowIs(plan, sorted);
    if plan.before.Some? {
      var at := FirstNotBefore(plan.sorters, sorted, plan.before.value.doc);
      BeyondWalk(source, plan.name, collection, plan.ascending, sources, plan.before.value.doc, !plan.ascending);
      LastOf(sorted, at, plan.limit);
    } else if plan.after.Some? {
      var after := FirstAfter(plan.sorters, sorted, plan.after.value.doc);
      BeyondWalk(source, plan.name, collection, plan.ascending, sources, plan.after.value.doc, plan.ascending);
      FirstOf(sorted, after, plan.limit);
    } else {
      WholeWalk(source, plan.name, collection, plan.ascending, sources);
      assert sorted[0..] == sorted;
      FirstOf(sorted, 0, plan.limit);
    }
  }

  lemma PlanFacts(plan: Plan)
    requires GoodPlan(plan)
    ensures PositionOf(plan) == if plan.after.Some? then plan.after else plan.before
    ensures plan.limit > 0 && (plan.after.None? || plan.before.None?)
    ensures plan.name != Some([ID]) && (plan.name.None? ==> !plan.ascending)
    ensures plan.sorters == SortersFor(plan.name, plan.ascending)
    ensures PositionOf(plan).Some? ==> CleanFor(plan.name, PositionOf(plan).value.doc)
  {
  }

  lemma WindowIs(plan: Plan, sorted: seq<Doc>)
    requires plan.limit > 0 && (plan.after.None? || plan.before.None?)
    ensures Window(plan.sorters, sorted, plan.limit, plan.after, plan.before) ==
            if plan.before.Some? then
              var at := FirstNotBefore(plan.sorters, sorted, plan.before.value.doc); (if at > plan.limit
                  then at - plan.limit else 0, at)
            else
              var start := if plan.after.Some? then FirstAfter(plan.sorters, sorted, plan.after.value.doc) else 0;
              (start, if start + plan.limit < |sorted| then start + plan.limit else |sorted|)
  {
    hide FirstAfter, FirstNotBefore, DocOrder;
  }

  lemma LastOf(docs: seq<Doc>, at: nat, limit: int)
    requires limit > 0 && at <= |docs|
    ensures var walk := Lists.Reverse(docs[..at]);
            |walk| == at && Lists.Reverse(if at > limit then walk[..limit] else walk)
              == docs[if at > limit then at - limit else 0..at]
  {
    Lists.LastBefore(docs, at, limit);
    assert Lists.Cut(docs, 0, at) == docs[..at];
  }

  lemma FirstOf(docs: seq<Doc>, start: nat, limit: int)
    requires limit > 0 && start <= |docs|
    ensures var walk := docs[start..];
            (if |walk| > limit then walk[..limit] else walk)
              == docs[start..if start + limit < |docs| then start + limit else |docs|]
  {
  }

  /** A page built from the walk's documents is the expected one, counts included if it knows where it starts. */
  lemma PageMatches(plan: Plan, sorted: seq<Doc>, start: nat, end: nat, firstIndex: int, page: Page)
    requires plan.limit > 0 && start < end <= |sorted|
    requires Window(plan.sorters, sorted, plan.limit, plan.after, plan.before) == (start, end)
    requires page == BuildPage(plan, sorted[start..end], |sorted|, end < |sorted|, start > 0, firstIndex)
    ensures SamePage(page, Expected(plan, sorted))
    ensures firstIndex == start ==> page == Expected(plan, sorted)
  {
    hide Window, SortValues;
  }

  /** What lies beyond the page's first and last documents, in the two walks that look there. */
  lemma PageEdges(plan: Plan, collection: Text, source: seq<Doc>, sources: seq<Doc>, documents: seq<Doc>, start: nat,
      end: nat)
    requires GoodPlan(plan) && DistinctIds(sources) && IsIndex(source, plan.name, collection, sources)
    requires var sorted := SortDocs(plan.sorters, sources);
             start < end <= |sorted| && documents == sorted[start..end]
    ensures var first, last := documents[0], documents[|documents| - 1];
            && KeyOf(plan.name, collection, first).Some? && KeyOf(plan.name, collection, last).Some?
            && |CursorWalk(plan.name, collection, source,
                Beyond(collection, KeyOf(plan.name, collection, first).value, !plan.ascending),
                !plan.ascending)| == start
            && |CursorWalk(plan.name, collection, source,
                Beyond(collection, KeyOf(plan.name, collection, last).value, plan.ascending),
                plan.ascending)| == |sources| - end
            && first == SortDocs(plan.sorters, sources)[start] && last == SortDocs(plan.sorters, sources)[end - 1]
  {
    hide *;
    var sorted := SortDocs(plan.sorters, sources);
    assert documents[0] == sorted[start] && documents[|documents| - 1] == sorted[end - 1];
    MemberEdges(plan, collection, source, sources, start);
    MemberEdges(plan, collection, source, sources, end - 1);
  }

  lemma MemberEdges(plan: Plan, collection: Text, source: seq<Doc>, sources: seq<Doc>, k: nat)
    requires GoodPlan(plan) && DistinctIds(sources) && IsIndex(source, plan.name, collection, sources)
    requires k < |SortDocs(plan.sorters, sources)|
    ensures var doc := SortDocs(plan.sorters, sources)[k];
            && KeyOf(plan.name, collection, doc).Some?
            && |CursorWalk(plan.name, collection, source,
                Beyond(collection, KeyOf(plan.name, collection, doc).value, !plan.ascending), !plan.ascending)| == k
            && |CursorWalk(plan.name, collection, source,
                Beyond(collection, KeyOf(plan.name, collection, doc).value, plan.ascending),
                plan.ascending)| == |sources| - k - 1
  {
    hide *;
    PlanFacts(plan);
    IndexIsSorted(source, plan.name, collection, plan.ascending, sources);
    var sorted := SortDocs(plan.sorters, sources);
    var i := if plan.ascending then k else |source| - 1 - k;
    InOrderAt(source, plan.ascending, i);
    IndexMember(source, plan.name, collection, sources, i);
    BoundaryOfMember(plan.sorters, sorted, k);
    BeyondWalk(source, plan.name, collection, plan.ascending, sources, sorted[k], !plan.ascending);
    BeyondWalk(source, plan.name, collection, plan.ascending, sources, sorted[k], plan.ascending);
  }

  /** `{ ...row, ...fields }`. */
  function Merged(entries: seq<Property>, fields: seq<Property>): seq<Property>
    decreases |fields|
  {
    if fields == [] then entries else Merged(SetKey(entries, fields[0].key, fields[0].value), fields[1..])
  }

  /** Every field reads as given, and every other as it was. */
  lemma {:induction false} MergedReads(entries: seq<Property>, fields: seq<Property>, key: Text)
    requires forall i, j :: 0 <= i < j < |fields| ==> fields[i].key != fields[j].key
    ensures Lookup(Merged(entries, fields), key)
        == if Lookup(fields, key).Some? then Lookup(fields, key) else Lookup(entries, key)
    decreases |fields|
  {
    if fields != [] {
      var rest := fields[1..];
      assert forall i :: 0 <= i < |rest| ==> rest[i] == fields[i + 1];
      MergedReads(SetKey(entries, fields[0].key, fields[0].value), rest, key);
      SetKeyLookup(entries, fields[0].key, fields[0].value, key);
      if Lookup(rest, key).Some? && key == fields[0].key {
        LookupFinds(rest, key);
      }
    }
  }

  lemma {:induction false} LookupFinds(entries: seq<Property>, key: Text)
    requires Lookup(entries, key).Some?
    ensures exists i :: 0 <= i < |entries| && entries[i].key == key
    decreases |entries|
  {
    if entries[0].key != key {
      LookupFinds(entries[1..], key);
      var i :| 0 <= i < |entries[1..]| && entries[1..][i].key == key;
      assert entries[i + 1].key == key;
    }
  }

  lemma RemoveSize(rows: map<Text, Doc>, id: Text)
    requires id in rows
    ensures |rows - {id}| == |rows| - 1
  {
    assert (rows - {id}).Keys == rows.Keys - {id};
    assert |(rows - {id}).Keys| == |rows.Keys| - 1;
  }

  lemma InsertSize(rows: map<Text, Doc>, id: Text, doc: Doc)
    ensures |rows[id := doc]| == if id in rows then |rows| else |rows| + 1
  {
    assert rows[id := doc].Keys == rows.Keys + {id};
    assert |rows[id := doc].Keys| == |rows.Keys + {id}|;
  }
}
