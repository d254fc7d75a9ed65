/**
 * The IndexedDB storage: pages read from an ordered index must be the pages `queryDocs` computes
 * from the whole collection. packages/client/src/LivequeryIndexedDBStorage.ts.
 */
module IndexedStorage {
  import opened Wrappers
  import opened Utf16
  import opened Documents
  import opened Paging

  // --- Keys, compared as the Indexed Database API 3.0 compares them (section 3.1.6) ---

  datatype Key = KNumber(n: real) | KInfinity | KString(s: Text) | KArray(items: seq<Key>)

  function KeyType(k: Key): int {
    match k
    case KNumber(_) => 0
    case KInfinity => 0
    case KString(_) => 1
    case KArray(_) => 2
  }

  function KeyOrder(a: Key, b: Key): int
    decreases a, 0
  {
    if KeyType(a) != KeyType(b) then Sign(KeyType(a) - KeyType(b))
    else match a
      case KNumber(n) => if b.KInfinity? then -1 else RealOrder(n, b.n)
      case KInfinity => if b.KInfinity? then 0 else 1
      case KString(s) => SeqOrder(s, b.s)
      case KArray(items) => KeysOrder(items, b.items)
  }

  function KeysOrder(x: seq<Key>, y: seq<Key>): int
    decreases x, 0
  {
    if x == [] || y == [] then Sign(|x| - |y|)
    else
      var d := KeyOrder(x[0], y[0]);
      if d != 0 then d else KeysOrder(x[1..], y[1..])
  }

  function Number(n: int): Key { KNumber(n as real) }

  /** A value's index key `[type rank, value]`; None for arrays and objects. */
  function SortKey(value: Option<Value>): Option<Key> {
    match value
    case None => Some(KArray([Number(NULL_RANK)]))
    case Some(Null) => Some(KArray([Number(NULL_RANK)]))
    case Some(Num(n)) => Some(KArray([Number(NUMBER_RANK), KNumber(n)]))
    case Some(Str(s)) => Some(KArray([Number(STRING_RANK), KString(Rekeyed(s))]))
    case Some(Bool(b)) => Some(KArray([Number(BOOLEAN_RANK), Number(if b then 1 else 0)]))
    case Some(Arr(_)) => None
    case Some(Obj(_)) => None
  }

  function IdKey(id: Text): Key {
    KArray([Number(IdRank(id).0), KString(Rekeyed(IdRank(id).1))])
  }

  /** Which index: on a field, or (None) on the id. */
  type IndexName = Option<FieldPath>

  /** The key a document has in an index, None when it has none (the row is `odd`). */
  function KeyOf(name: IndexName, collection: Text, doc: Doc): Option<Key> {
    match name
    case None => Some(KArray([KString(collection), IdKey(doc.id)]))
    case Some(path) =>
      match SortKey(Get(doc, path))
      case None => None
      case Some(key) => Some(KArray([KString(collection), key, IdKey(doc.id)]))
  }

  datatype Range = Range(lower: Key, upper: Key, lowerOpen: bool, upperOpen: bool)

  predicate Contains(range: Range, key: Key) {
    && (if range.lowerOpen then KeyOrder(key, range.lower) > 0 else KeyOrder(key, range.lower) >= 0)
    && (if range.upperOpen then KeyOrder(key, range.upper) < 0 else KeyOrder(key, range.upper) <= 0)
  }

  function Bottom(collection: Text): Key { KArray([KString(collection)]) }

  function Top(collection: Text): Key { KArray([KString(collection), KArray([KInfinity])]) }

  function Whole(collection: Text): Range {
    Range(Bottom(collection), Top(collection), false, false)
  }

  function Beyond(collection: Text, key: Key, up: bool): Range {
    if up then Range(key, Top(collection), true, false) else Range(Bottom(collection), key, false, true)
  }

  // --- Keys order documents as compareDocs does ---

  /** Strings are well-formed UTF-16, so their re-encoding keeps code-point order. */
  predicate CleanValue(value: Option<Value>) {
    value.Some? && value.value.Str? ==> WellFormed(value.value.s)
  }

  predicate CleanFor(name: IndexName, doc: Doc) {
    && WellFormed(IdRank(doc.id).1)
    && (name.Some? ==> CleanValue(Get(doc, name.value)))
  }

  function SortersFor(name: IndexName, ascending: bool): seq<Sorter> {
    if name.None? then [] else [Sorter(name.value, ascending)]
  }

  lemma KeysOrderPair(x: seq<Key>, y: seq<Key>)
    requires x != [] && y != []
    ensures KeysOrder(x, y) == if KeyOrder(x[0], y[0]) != 0 then KeyOrder(x[0], y[0]) else KeysOrder(x[1..], y[1..])
  {
  }

  lemma IdKeyOrder(a: Text, b: Text)
    requires WellFormed(IdRank(a).1) && WellFormed(IdRank(b).1)
    ensures KeyOrder(IdKey(a), IdKey(b)) == IdOrder(a, b)
  {
    RekeyedOrder(IdRank(a).1, IdRank(b).1);
    KeysOrderPair(IdKey(a).items, IdKey(b).items);
    KeysOrderPair(IdKey(a).items[1..], IdKey(b).items[1..]);
  }

  lemma SortKeyOrder(a: Option<Value>, b: Option<Value>)
    requires CleanValue(a) && CleanValue(b) && SortKey(a).Some? && SortKey(b).Some?
    ensures KeyOrder(SortKey(a).value, SortKey(b).value)
            == SortValueOrder(SortValueOf(a, true), SortValueOf(b, true))
            == SortValueOrder(SortValueOf(a, false), SortValueOf(b, false))
  {
    var x, y := SortKey(a).value.items, SortKey(b).value.items;
    KeysOrderPair(x, y);
    if |x| > 1 && |y| > 1 {
      KeysOrderPair(x[1..], y[1..]);
    }
    if a.Some? && b.Some? && a.value.Str? && b.value.Str? {
      RekeyedOrder(a.value.s, b.value.s);
    }
  }

  /** An index walked upwards is the plan's order, or its exact reverse when the plan descends. */
  lemma KeyOrderIsDocOrder(name: IndexName, collection: Text, ascending: bool, a: Doc, b: Doc)
    requires name != Some([ID]) && (name.None? ==> !ascending)
    requires CleanFor(name, a) && CleanFor(name, b)
    requires KeyOf(name, collection, a).Some? && KeyOf(name, collection, b).Some?
    ensures KeyOrder(KeyOf(name, collection, a).value, KeyOf(name, collection, b).value)
            == Signed(DocOrder(SortersFor(name, ascending), a, b), ascending)
  {
    var x, y := KeyOf(name, collection, a).value.items, KeyOf(name, collection, b).value.items;
    SeqOrderZero(collection, collection);
    KeysOrderPair(x, y);
    KeysOrderPair(x[1..], y[1..]);
    IdKeyOrder(a.id, b.id);
    var sorters := SortersFor(name, ascending);
    var idSorter := Sorter([ID], ascending);
    if name.Some? {
      SortKeyOrder(Get(a, name.value), Get(b, name.value));
      KeysOrderPair(x[1..][1..], y[1..][1..]);
      assert WithTie(sorters) == [sorters[0], idSorter] && WithTie(sorters)[1..] == [idSorter];
      assert KeyOrder(x[1], y[1]) == FieldOrder(sorters[0], a, b);
      assert KeyOrder(x[2], y[2]) == FieldOrder(idSorter, a, b);
      assert KeysOrder(x[1..][1..], y[1..][1..]) == KeyOrder(x[2], y[2]);
      OrderByOne(idSorter, a, b);
    } else {
      OrderByOne(idSorter, a, b);
      assert WithTie(sorters) == [idSorter];
      assert KeysOrder(x[1..], y[1..]) == KeyOrder(x[1], y[1]);
      assert KeyOrder(x[1], y[1]) == FieldOrder(idSorter, a, b);
    }
  }

  lemma OrderByOne(sorter: Sorter, a: Doc, b: Doc)
    ensures OrderBy([sorter], a, b) == Signed(FieldOrder(sorter, a, b), sorter.ascending)
  {
    assert OrderBy([sorter][1..], a, b) == 0;
  }

  // --- Plans ---

  /** A filter entry. A comparison with `null` is an entry whose value is null, and so is a `NullSort`. */
  datatype Filter =
    | Limit(n: int)
    | After(token: Token)
    | Before(token: Token)
    | Sort(path: FieldPath, ascending: bool)
    | NullSort(path: FieldPath)
    | Equals(path: FieldPath, expected: Value)

  /** A query an index answers on its own. */
  datatype Plan = Plan(name: IndexName, sorters: seq<Sorter>, ascending: bool, limit: int, after: Option<Position>,
      before: Option<Position>)

  /** What `queryDocs` sorts by: whatever is not ascending descends, null too. */
  function SortersOf(filters: seq<Filter>): seq<Sorter> {
    if filters == [] then [] else SorterOf(filters[0]) + SortersOf(filters[1..])
  }

  function SorterOf(filter: Filter): seq<Sorter> {
    match filter
    case Sort(path, ascending) => [Sorter(path, ascending)]
    case NullSort(path) => [Sorter(path, false)]
    case _ => []
  }

  /** What a plan may read an index on: the sort entries that are not null. */
  function PathsOf(filters: seq<Filter>): seq<FieldPath> {
    if filters == [] then [] else (if filters[0].Sort? then [filters[0].path] else []) + PathsOf(filters[1..])
  }

  lemma {:induction false} PathsSorted(filters: seq<Filter>)
    requires forall f <- filters :: !f.NullSort?
    ensures |PathsOf(filters)| == |SortersOf(filters)|
    ensures forall i :: 0 <= i < |SortersOf(filters)| ==> PathsOf(filters)[i] == SortersOf(filters)[i].path
    decreases |filters|
  {
    if filters != [] {
      PathsSorted(filters[1..]);
    }
  }

  /** The last value given under `:limit`, `:after` and `:before`: keys of one object are unique. */
  function RequestOf(filters: seq<Filter>, request: Request := Request(None, None, None)): Request {
    if filters == [] then request else RequestOf(filters[1..], Requested(request, filters[0]))
  }

  function Requested(request: Request, filter: Filter): Request {
    match filter
    case Limit(n) => request.(limit := Some(n))
    case After(token) => request.(after := Some(token))
    case Before(token) => request.(before := Some(token))
    case _ => request
  }

  predicate IsIdentifier(segment: Text) {
    && segment != []
    && (forall i :: 0 <= i < |segment| ==> IsWordUnit(segment[i]))
    && !(0x30 <= segment[0] <= 0x39)
  }

  predicate IsWordUnit(u: int) {
    0x30 <= u <= 0x39 || 0x41 <= u <= 0x5A || 0x61 <= u <= 0x7A || u == 0x5F
  }

  /** Digits, capital letters, the underscore, small letters. */
  lemma WordUnitsAre(u: int)
    ensures IsWordUnit(u) <==> u in {
      48, 49, 50, 51, 52, 53, 54, 55, 56, 57,
      65, 66, 67, 68, 69, 70, 71, 72, 73, 74, 75, 76, 77, 78, 79, 80, 81, 82, 83, 84, 85, 86, 87, 88, 89, 90, 95,
      97, 98, 99, 100, 101, 102, 103, 104, 105, 106, 107, 108, 109, 110, 111, 112, 113, 114, 115, 116, 117, 118, 119,
      120, 121, 122}
  {
  }

  /** A segment of a path an index can have: such units, the first of them no digit. */
  lemma IdentifierIs(segment: Text)
    ensures IsIdentifier(segment) <==>
              && segment != [] && segment[0] !in {48, 49, 50, 51, 52, 53, 54, 55, 56, 57}
              && forall u <- segment :: IsWordUnit(u)
  {
    hide IsWordUnit;
  }

  /** What only an index can be asked: at most one sorter, no condition. Null conditions are skipped. */
  predicate Indexable(filters: seq<Filter>) {
    && |PathsOf(filters)| <= 1
    && forall f <- filters :: f.Equals? ==> f.expected == Null
  }

  function PlanFor(filters: seq<Filter>): Option<Plan> {
    if Indexable(filters) then PlanOn(PathsOf(filters), SortersOf(filters), RequestOf(filters)) else None
  }

  function PlanOn(paths: seq<FieldPath>, sorters: seq<Sorter>, request: Request): Option<Plan> {
    var cursor := if request.after.Some? then request.after else request.before;
    if request.limit.None? || request.limit.value <= 0 then None
    else if request.after.Some? && request.before.Some? then None
    else if paths != [] && !(forall segment <- paths[0] :: IsIdentifier(segment)) then None
    else if cursor.Some? && Decoded(cursor.value).None? then None
    else Some(Plan(if paths == [] then None else Some(paths[0]), sorters,
                   sorters != [] && sorters[0].ascending, request.limit.value,
                   Position_(request.after), Position_(request.before)))
  }

  method PlanOf(filters: seq<Filter>) returns (plan: Option<Plan>)
    ensures plan == PlanFor(filters)
  {
    hide PlanOn, PathsOf, SortersOf, RequestOf;
    var request := Request(None, None, None);
    var path: IndexName := None;
    for i := 0 to |filters|
      invariant RequestOf(filters) == RequestOf(filters[i..], request)
      invariant PathsOf(filters) == (if path.Some? then [path.value] else []) + PathsOf(filters[i..])
      invariant forall k :: 0 <= k < i && filters[k].Equals? ==> filters[k].expected == Null
    {
      FilterSteps(filters, i, request);
      match filters[i] {
        case Equals(_, expected) =>
          if expected != Null {
            assert filters[i] in filters;
            return None;
          }
        case Limit(n) => request := request.(limit := Some(n));
        case After(token) => request := request.(after := Some(token));
        case Before(token) => request := request.(before := Some(token));
        case NullSort(_) =>
        case Sort(next, _) =>
          if path.Some? {
            return None;
          }
          path := Some(next);
      }
    }
    NoFiltersLeft(filters, request);
    assert PathsOf(filters) == if path.Some? then [path.value] else [];
    plan := PlanPage(path, SortersOf(filters), request);
  }

  lemma FilterSteps(filters: seq<Filter>, i: nat, request: Request)
    requires i < |filters|
    ensures PathsOf(filters[i..]) == (if filters[i].Sort? then [filters[i].path] else []) + PathsOf(filters[i + 1..])
    ensures RequestOf(filters[i..], request) == RequestOf(filters[i + 1..], Requested(request, filters[i]))
  {
    assert filters[i..][1..] == filters[i + 1..];
  }

  lemma NoFiltersLeft(filters: seq<Filter>, request: Request)
    ensures PathsOf(filters[|filters|..]) == []
    ensures RequestOf(filters[|filters|..], request) == request
  {
  }

  /** The page an index is asked for: its limit, direction and decoded cursor. */
  method PlanPage(path: IndexName, sorters: seq<Sorter>, request: Request) returns (plan: Option<Plan>)
    ensures plan == PlanOn(if path.Some? then [path.value] else [], sorters, request)
  {
    if request.limit.None? || request.limit.value <= 0 {
      return None;
    }
    if request.after.Some? && request.before.Some? {
      return None;
    }
    if path.Some? && exists segment <- path.value :: !IsIdentifier(segment) {
      return None;
    }
    var cursor := if request.after.Some? then request.after else request.before;
    var position: Option<Position> := None;
    if cursor.Some? {
      position := Decode(cursor.value);
      if position.None? {
        return None;
      }
    }
    return Some(Plan(path, sorters, sorters != [] && sorters[0].ascending, request.limit.value,
                     if request.after.Some? then position else None,
                     if request.before.Some? then position else None));
  }

  // --- The simple form ---

  /** `actual === expected` on JSON values: never true of two arrays or objects. */
  predicate Strictly(actual: Option<Value>, expected: Value) {
    actual == Some(expected) && !expected.Arr? && !expected.Obj?
  }

  predicate Passes(doc: Doc, filters: seq<Filter>) {
    forall f <- filters :: f.Equals? ==> Strictly(Get(doc, f.path), f.expected)
  }

  function FilterDocs(docs: seq<Doc>, filters: seq<Filter>): seq<Doc> {
    if docs == [] then []
    else (if Passes(docs[0], filters) then [docs[0]] else []) + FilterDocs(docs[1..], filters)
  }

  function QueryDocs(docs: seq<Doc>, filters: seq<Filter>): Page {
    var sorters, request := SortersOf(filters), RequestOf(filters);
    var matching := FilterDocs(docs, filters);
    Paginated(sorters, if sorters != [] || request.limit.Some? then SortDocs(sorters, matching) else matching, request)
  }

  lemma {:induction false} NothingFiltered(docs: seq<Doc>, filters: seq<Filter>)
    requires forall f <- filters :: !f.Equals?
    ensures FilterDocs(docs, filters) == docs
    decreases |docs|
  {
    if docs != [] {
      NothingFiltered(docs[1..], filters);
    }
  }

  // --- What a query answers ---

  predicate Scalar(v: Value) { !v.Arr? && !v.Obj? }

  /** The documents asked for: each condition's field holds the very value, and the value is no array or object. */
  function Sought(docs: seq<Doc>, filters: seq<Filter>): set<Doc> {
    set d | d in docs && forall f <- filters :: f.Equals? ==> Get(d, f.path) == Some(f.expected) && Scalar(f.expected)
  }

  ghost predicate Unlimited(filters: seq<Filter>) {
    forall f <- filters :: f.Limit? ==> f.n <= 0
  }

  /** `a` sorts no later than `b` by a field of scalars, a missing one counting as null. */
  predicate NotAfter(a: Doc, b: Doc, path: FieldPath, ascending: bool) {
    var x, y := Get(a, path).GetOr(Null), Get(b, path).GetOr(Null);
    path != [ID] && Scalar(x) && Scalar(y) ==> if ascending then ValueOrder(x, y) <= 0 else ValueOrder(x, y) >= 0
  }

  /**
   * A page of documents that were asked for, each once, with their number for a total: all of them without a
   * limit, and with one and no cursor as many as it allows. They go up or down the first sort entry as it says.
   */
  ghost predicate Answers(page: Page, docs: seq<Doc>, filters: seq<Filter>) {
    && page.total == |Sought(docs, filters)| && page.current == |page.documents|
    && (forall d <- page.documents :: d in Sought(docs, filters))
    && (forall i, j :: 0 <= i < j < |page.documents| ==> page.documents[i] != page.documents[j])
    && (Unlimited(filters) ==> forall d <- Sought(docs, filters) :: d in page.documents)
    && (forall f <- filters :: f.Limit? && f.n > 0 ==> |page.documents| <= f.n)
    && (forall f <- filters :: f.Limit? && f.n > 0 && (forall g <- filters :: !g.After? && !g.Before?) ==>
          |page.documents| == f.n || forall d <- Sought(docs, filters) :: d in page.documents)
    && InAskedOrder(page.documents, filters)
    && BeyondCursors(page.documents, filters)
  }

  /** With a limit, no document is on the wrong side of a cursor. */
  ghost predicate BeyondCursors(docs: seq<Doc>, filters: seq<Filter>) {
    !Unlimited(filters) ==> forall f <- filters, d <- docs ::
      && (f.After? && Decoded(f.token).Some? ==> DocOrder(SortersOf(filters), d, Decoded(f.token).value.doc) > 0)
      && (f.Before? && Decoded(f.token).Some? ==> DocOrder(SortersOf(filters), d, Decoded(f.token).value.doc) < 0)
  }

  /** The documents go up or down the field of the first sort entry, as it says. */
  ghost predicate InAskedOrder(docs: seq<Doc>, filters: seq<Filter>) {
    forall k :: 0 <= k < |filters| && IsSort(filters[k]) && (forall i :: 0 <= i < k ==> !IsSort(filters[i])) ==>
      forall i, j :: 0 <= i < j < |docs| ==>
        NotAfter(docs[i], docs[j], filters[k].path, filters[k].Sort? && filters[k].ascending)
  }

  predicate IsSort(filter: Filter) { filter.Sort? || filter.NullSort? }

  /** Keys of one object are unique: one limit and one cursor of a kind. */
  ghost predicate OneEach(filters: seq<Filter>) {
    forall i, j :: 0 <= i < j < |filters| ==>
      && !(filters[i].Limit? && filters[j].Limit?)
      && !(filters[i].After? && filters[j].After?) && !(filters[i].Before? && filters[j].Before?)
  }

  lemma PassesIs(doc: Doc, filters: seq<Filter>)
    ensures Passes(doc, filters) <==>
        forall f <- filters :: f.Equals? ==> Get(doc, f.path) == Some(f.expected) && Scalar(f.expected)
  {
    assert forall f <- filters :: f.Equals? ==>
        (Strictly(Get(doc, f.path), f.expected) <==> Get(doc, f.path) == Some(f.expected) && Scalar(f.expected));
  }

  /** What `filterDocs` leaves is what was asked for. */
  lemma {:induction false} FilterDocsAre(docs: seq<Doc>, filters: seq<Filter>)
    ensures forall d :: d in FilterDocs(docs, filters) <==> d in Sought(docs, filters)
    decreases |docs|
  {
    if docs != [] {
      FilterDocsAre(docs[1..], filters);
      assert docs == [docs[0]] + docs[1..];
      PassesIs(docs[0], filters);
      hide Passes, Get;
    }
  }

  lemma {:induction false} DistinctSize(docs: seq<Doc>, all: set<Doc>)
    requires forall i, j :: 0 <= i < j < |docs| ==> docs[i] != docs[j]
    requires forall d :: d in docs <==> d in all
    ensures |all| == |docs|
    decreases |docs|
  {
    if docs == [] {
      assert all == {};
    } else {
      var rest := docs[1..];
      assert docs == [docs[0]] + rest;
      assert forall i :: 0 <= i < |rest| ==> rest[i] == docs[i + 1];
      DistinctSize(rest, all - {docs[0]});
    }
  }

  /** A request without an entry of a kind has none of it. */
  lemma {:induction false} RequestHas(filters: seq<Filter>, request: Request)
    ensures (forall f <- filters :: !f.Limit?) ==> RequestOf(filters, request).limit == request.limit
    ensures (forall f <- filters :: !f.After?) ==> RequestOf(filters, request).after == request.after
    ensures (forall f <- filters :: !f.Before?) ==> RequestOf(filters, request).before == request.before
    decreases |filters|
  {
    if filters != [] {
      RequestHas(filters[1..], Requested(request, filters[0]));
      assert filters[0] in filters && forall f <- filters[1..] :: f in filters;
    }
  }

  /** What an entry gives it has. */
  lemma {:induction false} RequestLimit(filters: seq<Filter>, request: Request, k: nat)
    requires k < |filters| && OneEach(filters)
    ensures filters[k].Limit? ==> RequestOf(filters, request).limit == Some(filters[k].n)
    ensures filters[k].After? ==> RequestOf(filters, request).after == Some(filters[k].token)
    ensures filters[k].Before? ==> RequestOf(filters, request).before == Some(filters[k].token)
    decreases |filters|
  {
    var rest := filters[1..];
    assert forall i :: 0 <= i < |rest| ==> rest[i] == filters[i + 1];
    if k > 0 {
      RequestLimit(rest, Requested(request, filters[0]), k - 1);
    } else {
      RequestHas(rest, Requested(request, filters[0]));
    }
    hide RequestOf;
  }

  lemma {:induction false} RequestUnlimited(filters: seq<Filter>, request: Request)
    requires Unlimited(filters) && (request.limit.Some? ==> request.limit.value <= 0)
    ensures RequestOf(filters, request).limit.Some? ==> RequestOf(filters, request).limit.value <= 0
    decreases |filters|
  {
    if filters != [] {
      assert filters[0] in filters && forall f <- filters[1..] :: f in filters;
      RequestUnlimited(filters[1..], Requested(request, filters[0]));
    }
  }

  /** The limit and cursors of a request are those the entries give. */
  lemma RequestIs(filters: seq<Filter>)
    requires OneEach(filters)
    ensures var r := RequestOf(filters);
            && (forall f <- filters :: f.Limit? ==> r.limit == Some(f.n))
            && (forall f <- filters :: f.After? ==> r.after == Some(f.token))
            && (forall f <- filters :: f.Before? ==> r.before == Some(f.token))
            && ((forall f <- filters :: !f.After? && !f.Before?) ==> r.after.None? && r.before.None?)
            && (Unlimited(filters) ==> r.limit.None? || r.limit.value <= 0)
  {
    RequestHas(filters, Request(None, None, None));
    if Unlimited(filters) { RequestUnlimited(filters, Request(None, None, None)); }
    hide RequestOf;
    forall f | f in filters
      ensures f.Limit? ==> RequestOf(filters).limit == Some(f.n)
      ensures f.After? ==> RequestOf(filters).after == Some(f.token)
      ensures f.Before? ==> RequestOf(filters).before == Some(f.token)
    {
      var k :| 0 <= k < |filters| && filters[k] == f;
      RequestLimit(filters, Request(None, None, None), k);
    }
  }

  /** The first sort entry is the first sorter. */
  lemma {:induction false} FirstSorter(filters: seq<Filter>, k: nat)
    requires k < |filters| && IsSort(filters[k]) && forall i :: 0 <= i < k ==> !IsSort(filters[i])
    ensures SortersOf(filters) != []
        && SortersOf(filters)[0] == Sorter(filters[k].path, filters[k].Sort? && filters[k].ascending)
    decreases |filters|
  {
    if k > 0 {
      assert forall i :: 0 <= i < k - 1 ==> filters[1..][i] == filters[i + 1];
      FirstSorter(filters[1..], k - 1);
    }
  }

  /** Documents in order do not go against their first sorter. */
  lemma OrderedNotAfter(sorters: seq<Sorter>, a: Doc, b: Doc)
    requires sorters != [] && DocOrder(sorters, a, b) < 0
    ensures NotAfter(a, b, sorters[0].path, sorters[0].ascending)
  {
    assert WithTie(sorters)[0] == sorters[0];
    assert FieldOrder(sorters[0], a, b) == 0 || Signed(FieldOrder(sorters[0], a, b), sorters[0].ascending) < 0;
  }

  // --- When there is a plan, and which ---

  lemma {:induction false} PathsHold(filters: seq<Filter>)
    ensures forall path :: path in PathsOf(filters) <==> exists f <- filters :: f.Sort? && f.path == path
    decreases |filters|
  {
    if filters != [] {
      PathsHold(filters[1..]);
      assert filters == [filters[0]] + filters[1..];
    }
  }

  lemma NoPaths(filters: seq<Filter>)
    ensures PathsOf(filters) == [] <==> forall f <- filters :: !f.Sort?
  {
    PathsHold(filters);
    hide PathsOf;
    if PathsOf(filters) != [] {
      assert PathsOf(filters)[0] in PathsOf(filters);
    }
    if f :| f in filters && f.Sort? {
      assert f.path in PathsOf(filters);
    }
  }

  ghost predicate OneSort(filters: seq<Filter>) {
    forall i, j :: 0 <= i < j < |filters| ==> !(filters[i].Sort? && filters[j].Sort?)
  }

  lemma {:induction false} OnePath(filters: seq<Filter>)
    ensures |PathsOf(filters)| <= 1 <==> OneSort(filters)
    decreases |filters|
  {
    if filters != [] {
      var rest := filters[1..];
      OnePath(rest);
      NoPaths(rest);
      assert forall i :: 0 <= i < |rest| ==> rest[i] == filters[i + 1];
      assert forall i :: 0 < i < |filters| ==> filters[i] == rest[i - 1];
      if f :| f in rest && f.Sort? {
        var i :| 0 <= i < |rest| && rest[i] == f;
        assert filters[i + 1].Sort?;
      }
    }
  }

  /** Whether an index may be asked, by the entries alone. */
  ghost predicate Plannable(filters: seq<Filter>) {
    && (exists f <- filters :: f.Limit? && f.n > 0)
    && (forall f <- filters :: f.Equals? ==> f.expected == Null)
    && OneSort(filters)
    && (forall f <- filters :: f.Sort? ==> forall segment <- f.path :: IsIdentifier(segment))
    && ((forall f <- filters :: !f.After?) || (forall f <- filters :: !f.Before?))
    && (forall f <- filters :: f.After? || f.Before? ==> Decoded(f.token).Some?)
  }

  /** An index is asked exactly then: for the page the entries name, on the sort entry's field or on the ids. */
  lemma PlanIs(filters: seq<Filter>)
    requires OneEach(filters)
    ensures PlanFor(filters).Some? <==> Plannable(filters)
    ensures PlanFor(filters).Some? ==>
              var plan := PlanFor(filters).value;
              && (forall f <- filters :: f.Limit? ==> plan.limit == f.n)
              && (forall f <- filters :: f.Sort? ==> plan.name == Some(f.path))
              && ((forall f <- filters :: !f.Sort?) ==> plan.name == None)
              && (forall f <- filters :: f.After? ==> plan.after == Decoded(f.token))
              && (forall f <- filters :: f.Before? ==> plan.before == Decoded(f.token))
              && ((forall f <- filters :: !f.After?) ==> plan.after == None)
              && ((forall f <- filters :: !f.Before?) ==> plan.before == None)
  {
    NoPaths(filters);
    OnePath(filters);
    SortNamed(filters);
    RequestIs(filters);
    LimitGiven(filters);
    CursorGiven(filters);
    hide PathsOf, SortersOf, RequestOf, IsIdentifier, Decoded, OneEach, OneSort;
  }

  lemma SortNamed(filters: seq<Filter>)
    ensures OneSort(filters) ==> forall f <- filters :: f.Sort? ==> PathsOf(filters) == [f.path]
  {
    PathsHold(filters);
    OnePath(filters);
    hide PathsOf;
    forall f | f in filters && f.Sort? && OneSort(filters)
      ensures PathsOf(filters) == [f.path]
    {
      assert f.path in PathsOf(filters);
    }
  }

  lemma LimitGiven(filters: seq<Filter>)
    requires OneEach(filters)
    ensures (exists f <- filters :: f.Limit? && f.n > 0) <==>
        RequestOf(filters).limit.Some? && RequestOf(filters).limit.value > 0
  {
    RequestIs(filters);
    RequestHas(filters, Request(None, None, None));
    hide RequestOf, OneEach;
  }

  lemma CursorGiven(filters: seq<Filter>)
    requires OneEach(filters)
    ensures (forall f <- filters :: !f.After?) <==> RequestOf(filters).after.None?
    ensures (forall f <- filters :: !f.Before?) <==> RequestOf(filters).before.None?
  {
    RequestIs(filters);
    RequestHas(filters, Request(None, None, None));
    hide RequestOf, OneEach;
  }

  /** The database orders keys by type first: numbers, strings, arrays. */
  lemma KeyTypesInOrder(n: real, s: Text, items: seq<Key>, t: Text, x: real)
    ensures KeyOrder(KNumber(n), KInfinity) < 0 && KeyOrder(KInfinity, KString(s)) < 0
    ensures KeyOrder(KString(s), KArray(items)) < 0 && KeyOrder(KNumber(n), KString(s)) < 0
    ensures KeyOrder(KNumber(n), KNumber(x)) < 0 <==> n < x
    ensures KeyOrder(KString(s), KString(t)) == SeqOrder(s, t)
  {
  }

  lemma {:induction false} KeyArraysInOrder(same: seq<Key>, x: Key, xs: seq<Key>, y: Key, ys: seq<Key>)
    ensures KeyOrder(x, y) < 0 ==> KeyOrder(KArray(same + [x] + xs), KArray(same + [y] + ys)) < 0
    ensures KeyOrder(KArray(same), KArray(same + [x] + xs)) < 0
    decreases |same|
  {
    if same != [] {
      KeyArraysInOrder(same[1..], x, xs, y, ys);
      KeySelf(same[0]);
      assert (same + [x] + xs)[1..] == same[1..] + [x] + xs;
      assert (same + [y] + ys)[1..] == same[1..] + [y] + ys;
    }
  }

  lemma {:induction false} KeySelf(key: Key)
    ensures KeyOrder(key, key) == 0
    decreases key, 0
  {
    match key {
      case KString(s) => SeqOrderZero(s, s);
      case KArray(items) => KeysSelf(items);
      case _ =>
    }
  }

  lemma {:induction false} KeysSelf(items: seq<Key>)
    ensures KeysOrder(items, items) == 0
    decreases items, 0
  {
    if items != [] {
      KeySelf(items[0]);
      KeysSelf(items[1..]);
    }
  }
}
