/**
 * Cursors and keyset pages over documents in order: packages/client/src/helpers/paginateDocs.ts
 * and queryDocs.ts, the answer every storage must agree with.
 */
module Paging {
  import opened Wrappers
  import opened Utf16
  import opened Documents
  import Lists

  // --- Cursors ---

  datatype Located = Located(path: FieldPath, value: Value)

  /** A cursor's content: the sort values that are defined, the id, and the index when known. */
  datatype Cursor = Cursor(position: seq<Located>, id: Text, index: Option<int>)

  /** What a client sends back: text that decodes to a cursor, or does not. */
  datatype Token = Malformed | Encoded(cursor: Cursor)

  /** A decoded cursor: a document-shaped object, and the index it carries. */
  datatype Position = Position(doc: Doc, index: Option<int>)

  function Encode(doc: Doc, sorters: seq<Sorter>, index: Option<int>): Cursor {
    Cursor(SortValues(doc, sorters), doc.id, index)
  }

  /** `JSON.stringify` drops undefined values; a sorter on the id repeats the id. */
  function SortValues(doc: Doc, sorters: seq<Sorter>): seq<Located> {
    if sorters == [] then []
    else
      var value := Get(doc, sorters[0].path);
      (if value.Some? && sorters[0].path[0] != ID then [Located(sorters[0].path, value.value)] else [])
        + SortValues(doc, sorters[1..])
  }

  function SetKey(entries: seq<Property>, key: Text, value: Value): seq<Property> {
    if entries == [] then [Property(key, value)]
    else if entries[0].key == key then [Property(key, value)] + entries[1..]
    else [entries[0]] + SetKey(entries[1..], key, value)
  }

  /** What the path goes on into: a missing or null value is made an object. */
  function Opened(value: Option<Value>): Value {
    if value.None? || value == Some(Null) then Obj([]) else value.value
  }

  /** Assign at a dot path, creating objects on the way; None where JavaScript throws. */
  function PutIn(target: Value, path: FieldPath, value: Value): Option<Value>
    decreases |path|
  {
    var key := path[0];
    var next := if |path| == 1 then Some(value) else if target.Obj? || target.Arr?
      then PutIn(Opened(Child(target, key)), path[1..], value) else None;
    match target
    case Obj(entries) => if next.Some? then Some(Obj(SetKey(entries, key, next.value))) else None
    case Arr(items) => if next.Some? then PutElement(items, key, next.value) else None
    case _ => None
  }

  /** An element is replaced or put at the end; other assignments to an array only where they change nothing. */
  function PutElement(items: seq<Value>, key: Text, value: Value): Option<Value> {
    var i := ElementIndex(key);
    if i.Some? && i.value < |items| then Some(Arr(items[i.value := value]))
    else if i == Some(|items|) then Some(Arr(items + [value]))
    else if Child(Arr(items), key) == Some(value) then Some(Arr(items))
    else None
  }

  function Put(entries: seq<Property>, path: FieldPath, value: Value): Option<seq<Property>> {
    var r := PutIn(Obj(entries), path, value);
    if r.Some? then Some(r.value.entries) else None
  }

  function PutAll(entries: seq<Property>, position: seq<Located>): Option<seq<Property>>
    decreases |position|
  {
    if position == [] then Some(entries)
    else match Put(entries, position[0].path, position[0].value)
      case None => None
      case Some(e) => PutAll(e, position[1..])
  }

  function Decoded(token: Token): Option<Position> {
    match token
    case Malformed => None
    case Encoded(Cursor(position, id, index)) =>
      match PutAll([], position)
      case None => None
      case Some(fields) => Some(Position(Doc(id, fields), index))
  }

  /** The decoding loop: a document rebuilt one path at a time. */
  method Decode(token: Token) returns (decoded: Option<Position>)
    ensures decoded == Decoded(token)
  {
    if token.Malformed? {
      return None;
    }
    var position := token.cursor.position;
    var fields := [];
    for i := 0 to |position|
      invariant PutAll([], position) == PutAll(fields, position[i..])
    {
      assert position[i..][1..] == position[i + 1..];
      var next := Put(fields, position[i].path, position[i].value);
      if next.None? {
        return None;
      }
      fields := next.value;
    }
    return Some(Position(Doc(token.cursor.id, fields), token.cursor.index));
  }

  // --- A decoded cursor sorts exactly where its document does ---

  /** `part` holds some of what `whole` holds, wherever it holds anything; of an array it may be an object. */
  ghost predicate PartOf(part: seq<Property>, whole: Value)
    decreases part
  {
    forall e <- part :: Child(whole, e.key).Some? && PartValue(e.value, Child(whole, e.key).value)
  }

  ghost predicate PartValue(part: Value, whole: Value)
    decreases part
  {
    part == whole || (part.Obj? && (whole.Obj? || whole.Arr?) && PartOf(part.entries, whole))
  }

  lemma PartLookup(part: seq<Property>, whole: Value, key: Text)
    requires PartOf(part, whole) && Lookup(part, key).Some?
    ensures Child(whole, key).Some? && PartValue(Lookup(part, key).value, Child(whole, key).value)
    decreases |part|
  {
    if part[0].key != key {
      assert PartOf(part[1..], whole);
      PartLookup(part[1..], whole, key);
    }
  }

  lemma SetKeyLookup(entries: seq<Property>, key: Text, value: Value, other: Text)
    ensures Lookup(SetKey(entries, key, value), other) == if other == key then Some(value) else Lookup(entries, other)
    ensures Lookup(entries, key) == Some(value) ==> SetKey(entries, key, value) == entries
    ensures forall e <- SetKey(entries, key, value) :: e == Property(key, value) || e in entries
    decreases |entries|
  {
    if entries != [] {
      SetKeyLookup(entries[1..], key, value, other);
      assert entries == [entries[0]] + entries[1..];
    }
  }

  lemma {:induction false} PartGet(part: Value, whole: Value, path: Path)
    requires PartValue(part, whole) && GetIn(part, path).Some?
    ensures GetIn(whole, path).Some?
    decreases |path|
  {
    if path != [] && part != whole {
      PartLookup(part.entries, whole, path[0]);
      PartGet(Lookup(part.entries, path[0]).value, Child(whole, path[0]).value, path[1..]);
    }
  }

  /** `after` reads at `path` as the whole does, and wherever `part` did. */
  ghost predicate ReadsAlike(part: Value, whole: Value, path: Path, after: Value) {
    && GetIn(after, path) == GetIn(whole, path)
    && forall q: Path {:trigger GetIn(part, q)} ::
         GetIn(part, q).Some? && GetIn(part, q) == GetIn(whole, q) ==> GetIn(after, q) == GetIn(whole, q)
  }

  /** Assigning the whole's own value at a path never throws and spoils no value already there. */
  lemma {:induction false} PutPart(part: Value, whole: Value, path: FieldPath)
    requires PartValue(part, whole) && GetIn(whole, path).Some?
    ensures var r := PutIn(part, path, GetIn(whole, path).value);
            && r.Some? && PartValue(r.value, whole) && (part.Obj? ==> r.value.Obj?)
            && ReadsAlike(part, whole, path, r.value)
    decreases |path|
  {
    if part == whole {
      PutSame(whole, path);
      return;
    }
    var key, value := path[0], GetIn(whole, path).value;
    var child := Child(whole, key).value;
    assert GetIn(whole, path) == GetIn(child, path[1..]);
    var set_ := value;
    if |path| > 1 {
      assert Child(child, path[1]).Some?;
      if Lookup(part.entries, key).Some? {
        PartLookup(part.entries, whole, key);
      }
      var inner := Opened(Lookup(part.entries, key));
      PutPart(inner, child, path[1..]);
      set_ := PutIn(inner, path[1..], value).value;
    }
    PutKey(part, whole, path, set_);
  }

  /** One key set to a part of what the whole has there. */
  lemma PutKey(part: Value, whole: Value, path: FieldPath, set_: Value)
    requires part.Obj? && PartValue(part, whole) && part != whole && GetIn(whole, path).Some?
    requires PartValue(set_, Child(whole, path[0]).value)
    requires ReadsAlike(if |path| == 1 then Obj([]) else Opened(Lookup(part.entries, path[0])),
                        Child(whole, path[0]).value, path[1..], set_)
    ensures var r := Obj(SetKey(part.entries, path[0], set_));
            PartValue(r, whole) && ReadsAlike(part, whole, path, r)
  {
    var key, r := path[0], Obj(SetKey(part.entries, path[0], set_));
    SetKeyLookup(part.entries, key, set_, key);
    assert GetIn(r, path) == GetIn(set_, path[1..]);
    forall q: Path | GetIn(part, q).Some? && GetIn(part, q) == GetIn(whole, q)
      ensures GetIn(r, q) == GetIn(whole, q)
    {
      assert q != [];
      SetKeyLookup(part.entries, key, set_, q[0]);
      if q[0] == key {
        PartLookup(part.entries, whole, key);
        assert GetIn(part, q) == GetIn(Lookup(part.entries, key).value, q[1..]);
        assert GetIn(whole, q) == GetIn(Child(whole, key).value, q[1..]);
      }
    }
  }

  lemma {:induction false} PutSame(whole: Value, path: FieldPath)
    requires GetIn(whole, path).Some?
    ensures PutIn(whole, path, GetIn(whole, path).value) == Some(whole)
    decreases |path|
  {
    var child := Child(whole, path[0]).value;
    if |path| > 1 {
      PutSame(child, path[1..]);
    }
    if whole.Obj? {
      SetKeyLookup(whole.entries, path[0], child, path[0]);
    } else {
      SameElement(whole.items, path[0], child);
    }
  }

  lemma SameElement(items: seq<Value>, key: Text, value: Value)
    requires Child(Arr(items), key) == Some(value)
    ensures PutElement(items, key, value) == Some(Arr(items))
  {
    var i := ElementIndex(key);
    if i.Some? && i.value < |items| {
      assert items[i.value := items[i.value]] == items;
    }
    assert LENGTH[0] == 0x6C && !IsDigits(LENGTH);
  }

  ghost predicate Copied(doc: Doc, position: seq<Located>) {
    forall l <- position :: l.path[0] != ID && GetIn(Obj(doc.fields), l.path) == Some(l.value)
  }

  lemma {:induction false} PutAllAgrees(part: seq<Property>, doc: Doc, position: seq<Located>)
    requires PartValue(Obj(part), Obj(doc.fields)) && Copied(doc, position)
    ensures var r := PutAll(part, position);
            && r.Some? && PartValue(Obj(r.value), Obj(doc.fields))
            && (forall l <- position :: GetIn(Obj(r.value), l.path) == Some(l.value))
            && forall q: Path {:trigger GetIn(Obj(part), q)} ::
                 GetIn(Obj(part), q).Some? && GetIn(Obj(part), q) == GetIn(Obj(doc.fields), q) ==>
                   GetIn(Obj(r.value), q) == GetIn(Obj(doc.fields), q)
    decreases |position|
  {
    if position != [] {
      var whole := Obj(doc.fields);
      PutPart(Obj(part), whole, position[0].path);
      var next := Put(part, position[0].path, position[0].value).value;
      PutAllAgrees(next, doc, position[1..]);
      var r := PutAll(part, position).value;
      assert GetIn(Obj(next), position[0].path) == GetIn(whole, position[0].path);
      forall l | l in position
        ensures GetIn(Obj(r), l.path) == Some(l.value)
      {
        if l != position[0] {
          assert l in position[1..];
        }
      }
    }
  }

  lemma SortValuesCopied(doc: Doc, sorters: seq<Sorter>)
    ensures Copied(doc, SortValues(doc, sorters))
    ensures forall s <- sorters ::
              s.path[0] != ID && Get(doc, s.path).Some? ==>
                Located(s.path, Get(doc, s.path).value) in SortValues(doc, sorters)
    decreases |sorters|
  {
    if sorters != [] {
      SortValuesCopied(doc, sorters[1..]);
      assert sorters == [sorters[0]] + sorters[1..];
    }
  }

  /** Decoding an encoded cursor always succeeds and gives back the id, index and sort values. */
  lemma CursorRoundTrip(doc: Doc, sorters: seq<Sorter>, index: Option<int>)
    ensures var p := Decoded(Encoded(Encode(doc, sorters, index)));
            && p.Some? && p.value.index == index && p.value.doc.id == doc.id
            && forall s <- sorters :: Get(p.value.doc, s.path) == Get(doc, s.path)
  {
    var position := SortValues(doc, sorters);
    SortValuesCopied(doc, sorters);
    PutAllAgrees([], doc, position);
    var fields := PutAll([], position).value;
    forall s | s in sorters
      ensures Get(Doc(doc.id, fields), s.path) == Get(doc, s.path)
    {
      if s.path[0] != ID {
        if Get(doc, s.path).Some? {
          assert Located(s.path, Get(doc, s.path).value) in position;
        } else if GetIn(Obj(fields), s.path).Some? {
          PartGet(Obj(fields), Obj(doc.fields), s.path);
        }
      }
    }
  }

  /** So a decoded cursor compares to every document as the document it came from. */
  lemma CursorSortsAsItsDocument(doc: Doc, sorters: seq<Sorter>, index: Option<int>, other: Doc)
    ensures var p := Decoded(Encoded(Encode(doc, sorters, index)));
            && p.Some?
            && (DocOrder(sorters, other, p.value.doc) < 0 <==> DocOrder(sorters, other, doc) < 0)
            && (DocOrder(sorters, other, p.value.doc) == 0 <==> DocOrder(sorters, other, doc) == 0)
  {
    CursorRoundTrip(doc, sorters, index);
    DocOrderAgrees(sorters, Decoded(Encoded(Encode(doc, sorters, index))).value.doc, doc, other);
  }

  // --- Sorting ---

  ghost predicate Ordered(sorters: seq<Sorter>, docs: seq<Doc>) {
    forall i, j :: 0 <= i < j < |docs| ==> DocOrder(sorters, docs[i], docs[j]) < 0
  }

  ghost predicate DistinctIds(docs: seq<Doc>) {
    && (forall d <- docs :: CanonicalId(d.id))
    && forall i, j :: 0 <= i < j < |docs| ==> docs[i].id != docs[j].id
  }

  function Insert(sorters: seq<Sorter>, doc: Doc, docs: seq<Doc>): seq<Doc> {
    if docs == [] || DocOrder(sorters, doc, docs[0]) <= 0 then [doc] + docs
    else [docs[0]] + Insert(sorters, doc, docs[1..])
  }

  /** `Array.prototype.sort` with `compareDocs`: on a total order every sort gives this one result. */
  function SortDocs(sorters: seq<Sorter>, docs: seq<Doc>): seq<Doc> {
    if docs == [] then [] else Insert(sorters, docs[0], SortDocs(sorters, docs[1..]))
  }

  lemma {:induction false} InsertOrdered(sorters: seq<Sorter>, doc: Doc, docs: seq<Doc>)
    requires Ordered(sorters, docs) && forall d <- docs :: DocOrder(sorters, doc, d) != 0
    ensures Ordered(sorters, Insert(sorters, doc, docs))
    ensures multiset(Insert(sorters, doc, docs)) == multiset{doc} + multiset(docs)
    decreases |docs|
  {
    hide DocOrder;
    if docs == [] {
    } else if DocOrder(sorters, doc, docs[0]) <= 0 {
      forall d | d in docs
        ensures DocOrder(sorters, doc, d) < 0
      {
        DocOrderTransitive(sorters, doc, docs[0], d);
      }
      OrderedCons(sorters, doc, docs);
    } else {
      assert docs == [docs[0]] + docs[1..];
      InsertOrdered(sorters, doc, docs[1..]);
      var r := Insert(sorters, doc, docs[1..]);
      DocOrderTotal(sorters, doc, docs[0]);
      forall d | d in r
        ensures DocOrder(sorters, docs[0], d) < 0
      {
        assert d in multiset(r);
        if d != doc {
          assert d in docs[1..];
        }
      }
      OrderedCons(sorters, docs[0], r);
    }
    hide Ordered;
  }

  lemma OrderedCons(sorters: seq<Sorter>, first: Doc, rest: seq<Doc>)
    requires Ordered(sorters, rest) && forall d <- rest :: DocOrder(sorters, first, d) < 0
    ensures Ordered(sorters, [first] + rest)
  {
    hide DocOrder;
  }

  lemma {:induction false} SortDocsOrdered(sorters: seq<Sorter>, docs: seq<Doc>)
    requires DistinctIds(docs)
    ensures Ordered(sorters, SortDocs(sorters, docs))
    ensures multiset(SortDocs(sorters, docs)) == multiset(docs)
    decreases |docs|
  {
    if docs != [] {
      assert docs == [docs[0]] + docs[1..];
      SortDocsOrdered(sorters, docs[1..]);
      forall d | d in SortDocs(sorters, docs[1..])
        ensures DocOrder(sorters, docs[0], d) != 0
      {
        assert d in multiset(docs[1..]);
        DocOrderTotal(sorters, docs[0], d);
      }
      InsertOrdered(sorters, docs[0], SortDocs(sorters, docs[1..]));
    }
  }

  /** Two ordered listings of the same documents are the same sequence. */
  lemma {:induction false} OrderedUnique(sorters: seq<Sorter>, a: seq<Doc>, b: seq<Doc>)
    requires Ordered(sorters, a) && Ordered(sorters, b) && multiset(a) == multiset(b)
    ensures a == b
    decreases |a|
  {
    SameSize(a, b);
    if a != [] {
      SameHead(sorters, a, b);
      TailMultiset(a);
      TailMultiset(b);
      OrderedUnique(sorters, a[1..], b[1..]);
    }
  }

  lemma SameSize(a: seq<Doc>, b: seq<Doc>)
    requires multiset(a) == multiset(b)
    ensures |a| == |b|
  {
    assert |multiset(a)| == |a| && |multiset(b)| == |b|;
  }

  lemma TailMultiset(docs: seq<Doc>)
    requires docs != []
    ensures multiset(docs[1..]) == multiset(docs) - multiset{docs[0]} && docs == [docs[0]] + docs[1..]
  {
    assert docs == [docs[0]] + docs[1..];
  }

  lemma SameHead(sorters: seq<Sorter>, a: seq<Doc>, b: seq<Doc>)
    requires Ordered(sorters, a) && Ordered(sorters, b) && multiset(a) == multiset(b)
    requires a != [] && b != []
    ensures a[0] == b[0]
  {
    assert a[0] in multiset(b) && b[0] in multiset(a);
    var i :| 0 <= i < |b| && b[i] == a[0];
    var j :| 0 <= j < |a| && a[j] == b[0];
    if i > 0 && j > 0 {
      DocOrderTotal(sorters, a[0], b[0]);
    }
  }

  // --- Pages ---

  datatype Link = Link(count: int, cursor: Cursor)

  datatype Page = Page(documents: seq<Doc>, total: int, current: int, next: Option<Link>, prev: Option<Link>)

  /** `:limit`, `:after` and `:before`; no limit, or one that is not positive, means everything. */
  datatype Request = Request(limit: Option<int>, after: Option<Token>, before: Option<Token>)

  function Position_(token: Option<Token>): Option<Position> {
    if token.None? then None else Decoded(token.value)
  }

  /** The first document after `position`, or past the end. */
  function FirstAfter(sorters: seq<Sorter>, docs: seq<Doc>, position: Doc): (i: nat)
    ensures i <= |docs|
    ensures forall k :: 0 <= k < i ==> DocOrder(sorters, docs[k], position) <= 0
    ensures i < |docs| ==> DocOrder(sorters, docs[i], position) > 0
  {
    if docs == [] || DocOrder(sorters, docs[0], position) > 0 then 0
    else 1 + FirstAfter(sorters, docs[1..], position)
  }

  /** The first document at or after `position`, or past the end. */
  function FirstNotBefore(sorters: seq<Sorter>, docs: seq<Doc>, position: Doc): (i: nat)
    ensures i <= |docs|
    ensures forall k :: 0 <= k < i ==> DocOrder(sorters, docs[k], position) < 0
    ensures i < |docs| ==> DocOrder(sorters, docs[i], position) >= 0
  {
    if docs == [] || DocOrder(sorters, docs[0], position) >= 0 then 0
    else 1 + FirstNotBefore(sorters, docs[1..], position)
  }

  function IndexOf(docs: seq<Doc>, doc: Doc): int {
    if docs == [] then -1
    else if docs[0] == doc then 0
    else var i := IndexOf(docs[1..], doc); if i < 0 then i else i + 1
  }

  /** Where a page starts and ends in the order. */
  function Window(sorters: seq<Sorter>, sorted: seq<Doc>, limit: int, after: Option<Position>,
      before: Option<Position>): (w: (int, int))
    requires limit > 0
    ensures 0 <= w.0 <= |sorted| && 0 <= w.1 <= |sorted|
  {
    var start := if after.Some? then FirstAfter(sorters, sorted, after.value.doc) else 0;
    var end := if before.Some? then FirstNotBefore(sorters, sorted, before.value.doc) else |sorted|;
    if before.Some? && after.None? then (Lists.Max(start, end - limit), end) else (start, Lists.Min(end, start + limit))
  }

  function Paginated(sorters: seq<Sorter>, sorted: seq<Doc>, request: Request): Page {
    var total := |sorted|;
    if request.limit.None? || request.limit.value <= 0 then Page(sorted, total, total, None, None)
    else
      var (start, end) := Window(sorters, sorted, request.limit.value, Position_(request.after),
          Position_(request.before));
      var documents := if start <= end then sorted[start..end] else [];
      if documents == [] then Page([], total, 0, None, None)
      else
        var first, last := documents[0], documents[|documents| - 1];
        var firstIndex, lastIndex := IndexOf(sorted, first), IndexOf(sorted, last);
        Page(documents, total, |documents|,
             if total - lastIndex - 1 > 0
                 then Some(Link(total - lastIndex - 1, Encode(last, sorters, Some(lastIndex)))) else None,
             if firstIndex > 0 then Some(Link(firstIndex, Encode(first, sorters, Some(firstIndex)))) else None)
  }

  lemma {:induction false} IndexOfAt(docs: seq<Doc>, i: nat)
    requires i < |docs| && forall j, k :: 0 <= j < k < |docs| ==> docs[j] != docs[k]
    ensures IndexOf(docs, docs[i]) == i
    decreases |docs|
  {
    if i > 0 {
      assert docs[0] != docs[i];
      IndexOfAt(docs[1..], i - 1);
    }
  }

  lemma OrderedDistinct(sorters: seq<Sorter>, docs: seq<Doc>)
    requires Ordered(sorters, docs)
    ensures forall j, k :: 0 <= j < k < |docs| ==> docs[j] != docs[k]
  {
    forall j, k | 0 <= j < k < |docs|
      ensures docs[j] != docs[k]
    {
      DocOrderTotal(sorters, docs[j], docs[j]);
    }
  }

  /** The page at `[start, end)` of the order. */
  function PageAt(sorters: seq<Sorter>, sorted: seq<Doc>, start: nat, end: nat): Page
    requires start < end <= |sorted|
  {
    Page(sorted[start..end], |sorted|, end - start,
         if end < |sorted| then Some(Link(|sorted| - end, Encode(sorted[end - 1], sorters, Some(end - 1)))) else None,
         if start > 0 then Some(Link(start, Encode(sorted[start], sorters, Some(start)))) else None)
  }

  lemma PaginatedIsWindow(sorters: seq<Sorter>, sorted: seq<Doc>, request: Request)
    requires Ordered(sorters, sorted) && request.limit.Some? && request.limit.value > 0
    ensures var (start, end) := Window(sorters, sorted, request.limit.value, Position_(request.after),
        Position_(request.before));
            Paginated(sorters, sorted, request) ==
            if start < end then PageAt(sorters, sorted, start, end) else Page([], |sorted|, 0, None, None)
  {
    hide DocOrder, Encode, Position_, FirstAfter, FirstNotBefore;
    OrderedDistinct(sorters, sorted);
    var (start, end) := Window(sorters, sorted, request.limit.value, Position_(request.after),
        Position_(request.before));
    if start < end {
      IndexOfAt(sorted, start);
      IndexOfAt(sorted, end - 1);
    }
  }

  // --- Walking the pages ---

  /** Where a cursor on document `i` of the order points: right after it, and right at it. */
  lemma CursorPoints(sorters: seq<Sorter>, sorted: seq<Doc>, i: nat, index: Option<int>)
    requires Ordered(sorters, sorted) && i < |sorted|
    ensures var p := Decoded(Encoded(Encode(sorted[i], sorters, index)));
            && p.Some?
            && FirstAfter(sorters, sorted, p.value.doc) == i + 1
            && FirstNotBefore(sorters, sorted, p.value.doc) == i
  {
    hide DocOrder, Encode, Decoded;
    CursorSortsAsItsDocument(sorted[i], sorters, index, sorted[i]);
    var p := Decoded(Encoded(Encode(sorted[i], sorters, index))).value.doc;
    forall k | 0 <= k < |sorted|
      ensures DocOrder(sorters, sorted[k], p) < 0 <==> k < i
      ensures DocOrder(sorters, sorted[k], p) == 0 <==> k == i
    {
      CursorSortsAsItsDocument(sorted[i], sorters, index, sorted[k]);
      DocOrderTotal(sorters, sorted[i], sorted[k]);
    }
    FirstAfterIs(sorters, sorted, p, i + 1);
    FirstNotBeforeIs(sorters, sorted, p, i);
  }

  lemma FirstAfterIs(sorters: seq<Sorter>, docs: seq<Doc>, position: Doc, i: nat)
    requires i <= |docs|
    requires forall k :: 0 <= k < |docs| ==> (DocOrder(sorters, docs[k], position) <= 0 <==> k < i)
    ensures FirstAfter(sorters, docs, position) == i
  {
    hide DocOrder;
    var f := FirstAfter(sorters, docs, position);
    assert f < |docs| ==> f >= i;
    assert i < |docs| ==> DocOrder(sorters, docs[i], position) > 0;
  }

  lemma FirstNotBeforeIs(sorters: seq<Sorter>, docs: seq<Doc>, position: Doc, i: nat)
    requires i <= |docs|
    requires forall k :: 0 <= k < |docs| ==> (DocOrder(sorters, docs[k], position) < 0 <==> k < i)
    ensures FirstNotBefore(sorters, docs, position) == i
  {
    hide DocOrder;
    var f := FirstNotBefore(sorters, docs, position);
    assert f < |docs| ==> f >= i;
    assert i < |docs| ==> DocOrder(sorters, docs[i], position) >= 0;
  }

  /** The documents of every page, from the first page along `paging.next`. */
  function Walk(sorters: seq<Sorter>, sorted: seq<Doc>, limit: int, after: Option<Token>, fuel: nat): seq<seq<Doc>>
    decreases fuel
  {
    var page := Paginated(sorters, sorted, Request(Some(limit), after, None));
    [page.documents] +
    if page.next.None? || fuel == 0 then []
    else Walk(sorters, sorted, limit, Some(Encoded(page.next.value.cursor)), fuel - 1)
  }

  function Flat(pages: seq<seq<Doc>>): seq<Doc> {
    if pages == [] then [] else pages[0] + Flat(pages[1..])
  }

  /** The page after document `start - 1` is the next `limit` documents. */
  lemma NextPage(sorters: seq<Sorter>, sorted: seq<Doc>, limit: int, start: nat, after: Option<Token>)
    requires Ordered(sorters, sorted) && limit > 0 && start < |sorted|
    requires after == if start == 0 then None else Some(Encoded(Encode(sorted[start - 1], sorters, Some(start - 1))))
    ensures Paginated(sorters, sorted, Request(Some(limit), after, None))
            == PageAt(sorters, sorted, start, if start + limit < |sorted| then start + limit else |sorted|)
  {
    hide Paginated, DocOrder, Encode, Decoded, PageAt, FirstAfter, FirstNotBefore, Ordered;
    PaginatedIsWindow(sorters, sorted, Request(Some(limit), after, None));
    if start > 0 {
      CursorPoints(sorters, sorted, start - 1, Some(start - 1));
    }
  }

  lemma {:induction false} WalkFrom(sorters: seq<Sorter>, sorted: seq<Doc>, limit: int, start: nat,
      after: Option<Token>, fuel: nat)
    requires Ordered(sorters, sorted) && limit > 0 && start < |sorted| && fuel >= |sorted| - start
    requires after == if start == 0 then None else Some(Encoded(Encode(sorted[start - 1], sorters, Some(start - 1))))
    ensures var pages := Walk(sorters, sorted, limit, after, fuel);
            Flat(pages) == sorted[start..] && |pages| == (|sorted| - start + limit - 1) / limit
    decreases fuel
  {
    hide *;
    NextPage(sorters, sorted, limit, start, after);
    var end := if start + limit < |sorted| then start + limit else |sorted|;
    WalkStep(sorters, sorted, limit, after, fuel, start, end);
    if end < |sorted| {
      var next := Some(Encoded(Encode(sorted[end - 1], sorters, Some(end - 1))));
      WalkFrom(sorters, sorted, limit, end, next, fuel - 1);
      FlatCons(sorted[start..end], Walk(sorters, sorted, limit, next, fuel - 1));
      assert sorted[start..] == sorted[start..end] + sorted[end..];
      CeilingStep(|sorted| - start, limit);
    } else {
      assert sorted[start..end] == sorted[start..];
      FlatCons(sorted[start..], []);
      CeilingOne(|sorted| - start, limit);
    }
  }

  lemma WalkStep(sorters: seq<Sorter>, sorted: seq<Doc>, limit: int, after: Option<Token>, fuel: nat, start: nat,
      end: nat)
    requires start < end <= |sorted| && fuel > 0
    requires Paginated(sorters, sorted, Request(Some(limit), after, None)) == PageAt(sorters, sorted, start, end)
    ensures Walk(sorters, sorted, limit, after, fuel) == [sorted[start..end]] +
            if end < |sorted| then Walk(sorters, sorted, limit,
                Some(Encoded(Encode(sorted[end - 1], sorters, Some(end - 1)))), fuel - 1) else []
    ensures Flat([]) == []
  {
    hide Paginated, Encode;
  }

  lemma FlatCons(page: seq<Doc>, pages: seq<seq<Doc>>)
    ensures Flat([page] + pages) == page + Flat(pages)
  {
    assert ([page] + pages)[1..] == pages;
  }

  lemma CeilingStep(n: int, d: int)
    requires 0 < d < n
    ensures (n + d - 1) / d == (n - d + d - 1) / d + 1
  {
    var r, q := (n + d - 1) / d, (n - 1) / d;
    assert r * d <= n + d - 1 < r * d + d && q * d <= n - 1 < q * d + d;
    MulStep(r, q + 1, d);
    MulStep(q + 1, r, d);
  }

  lemma MulStep(a: int, b: int, d: int)
    requires d > 0
    ensures a < b ==> a * d + d <= b * d
    decreases b - a
  {
    if a + 1 < b {
      MulStep(a, b - 1, d);
    }
  }

  lemma CeilingOne(n: int, d: int)
    requires 0 < n <= d
    ensures (n + d - 1) / d == 1
  {
  }

  /**
   * Following `paging.next` from the first page lists every document exactly once, in order, in
   * ⌈n / limit⌉ pages: the walk stops by itself however much fuel is left.
   */
  lemma WalkVisitsAll(sorters: seq<Sorter>, sorted: seq<Doc>, limit: int, fuel: nat)
    requires Ordered(sorters, sorted) && limit > 0 && fuel >= |sorted|
    ensures var pages := Walk(sorters, sorted, limit, None, fuel);
            && Flat(pages) == sorted
            && |pages| == if sorted == [] then 1 else (|sorted| + limit - 1) / limit
  {
    hide DocOrder, Encode, Decoded;
    if sorted == [] {
      FlatCons([], []);
      assert Walk(sorters, sorted, limit, None, fuel) == [[]] + [];
    } else {
      WalkFrom(sorters, sorted, limit, 0, None, fuel);
    }
  }

  /** `:before` on the prev cursor of a full page's successor returns that page. */
  lemma PrevReturnsPrecedingPage(sorters: seq<Sorter>, sorted: seq<Doc>, limit: int, start: nat)
    requires Ordered(sorters, sorted) && limit > 0 && start + limit < |sorted|
    ensures var page := PageAt(sorters, sorted, start + limit, Lists.Min(|sorted|, start + 2 * limit));
            && page.prev.Some?
            && Paginated(sorters, sorted, Request(Some(limit), None, Some(Encoded(page.prev.value.cursor))))
               == PageAt(sorters, sorted, start, start + limit)
  {
    var page := PageAt(sorters, sorted, start + limit, Lists.Min(|sorted|, start + 2 * limit));
    CursorPoints(sorters, sorted, start + limit, Some(start + limit));
    PaginatedIsWindow(sorters, sorted, Request(Some(limit), None, Some(Encoded(page.prev.value.cursor))));
  }

  /** Adding documents at or before a cursor never changes the documents after it. */
  lemma InsertBeforeCursor(sorters: seq<Sorter>, docs: seq<Doc>, doc: Doc, limit: int, token: Token)
    requires limit > 0 && Decoded(token).Some?
    requires DistinctIds(docs + [doc])
    requires DocOrder(sorters, doc, Decoded(token).value.doc) <= 0
    ensures var request := Request(Some(limit), Some(token), None);
            Paginated(sorters, SortDocs(sorters, docs + [doc]), request).documents
            == Paginated(sorters, SortDocs(sorters, docs), request).documents
  {
    hide Paginated, DocOrder, Decoded, Insert, SortDocs;
    var request := Request(Some(limit), Some(token), None);
    var position := Decoded(token).value.doc;
    var sorted, larger := SortDocs(sorters, docs), SortDocs(sorters, docs + [doc]);
    SortWithOneMore(sorters, docs, doc);
    InsertSplits(sorters, doc, sorted, position);
    DocumentsAfter(sorters, sorted, limit, token);
    DocumentsAfter(sorters, larger, limit, token);
  }

  lemma DocumentsAfter(sorters: seq<Sorter>, sorted: seq<Doc>, limit: int, token: Token)
    requires Ordered(sorters, sorted) && limit > 0 && Decoded(token).Some?
    ensures var rest := sorted[FirstAfter(sorters, sorted, Decoded(token).value.doc)..];
            Paginated(sorters, sorted, Request(Some(limit), Some(token), None)).documents
              == rest[..Lists.Min(|rest|, limit)]
  {
    hide Paginated, DocOrder, Decoded;
    PaginatedIsWindow(sorters, sorted, Request(Some(limit), Some(token), None));
    var i := FirstAfter(sorters, sorted, Decoded(token).value.doc);
    assert sorted[i..Lists.Min(|sorted|, i + limit)] == sorted[i..][..Lists.Min(|sorted| - i, limit)];
  }

  lemma SortWithOneMore(sorters: seq<Sorter>, docs: seq<Doc>, doc: Doc)
    requires DistinctIds(docs + [doc])
    ensures Ordered(sorters, SortDocs(sorters, docs)) && Ordered(sorters, SortDocs(sorters, docs + [doc]))
    ensures SortDocs(sorters, docs + [doc]) == Insert(sorters, doc, SortDocs(sorters, docs))
  {
    hide DocOrder;
    DistinctPrefix(docs, doc);
    SortDocsOrdered(sorters, docs);
    SortDocsOrdered(sorters, docs + [doc]);
    var sorted := SortDocs(sorters, docs);
    forall d | d in sorted
      ensures DocOrder(sorters, doc, d) != 0
    {
      assert d in multiset(docs);
      var i :| 0 <= i < |docs| && docs[i] == d;
      assert (docs + [doc])[i].id != (docs + [doc])[|docs|].id;
      assert d in docs + [doc] && doc in docs + [doc];
      DocOrderTotal(sorters, doc, d);
    }
    InsertOrdered(sorters, doc, sorted);
    OrderedUnique(sorters, SortDocs(sorters, docs + [doc]), Insert(sorters, doc, sorted));
  }

  lemma DistinctPrefix(docs: seq<Doc>, doc: Doc)
    requires DistinctIds(docs + [doc])
    ensures DistinctIds(docs)
  {
    forall d | d in docs
      ensures CanonicalId(d.id)
    {
      assert d in docs + [doc];
    }
    forall i, j | 0 <= i < j < |docs|
      ensures docs[i].id != docs[j].id
    {
      assert (docs + [doc])[i] == docs[i] && (docs + [doc])[j] == docs[j];
    }
  }

  lemma {:induction false} InsertSplits(sorters: seq<Sorter>, doc: Doc, docs: seq<Doc>, position: Doc)
    requires DocOrder(sorters, doc, position) <= 0
    ensures var larger := Insert(sorters, doc, docs);
            && FirstAfter(sorters, larger, position) == FirstAfter(sorters, docs, position) + 1
            && larger[FirstAfter(sorters, larger, position)..] == docs[FirstAfter(sorters, docs, position)..]
    decreases |docs|
  {
    hide DocOrder;
    if docs != [] && DocOrder(sorters, doc, docs[0]) > 0 {
      DocOrderTotal(sorters, doc, docs[0]);
      DocOrderTransitive(sorters, docs[0], doc, position);
      InsertSplits(sorters, doc, docs[1..], position);
      PassesFirst(sorters, docs[0], docs[1..], position);
      PassesFirst(sorters, docs[0], Insert(sorters, doc, docs[1..]), position);
      assert docs == [docs[0]] + docs[1..];
    } else {
      PassesFirst(sorters, doc, docs, position);
    }
    hide FirstAfter;
  }

  lemma PassesFirst(sorters: seq<Sorter>, first: Doc, rest: seq<Doc>, position: Doc)
    requires DocOrder(sorters, first, position) <= 0
    ensures var docs := [first] + rest;
            && FirstAfter(sorters, docs, position) == FirstAfter(sorters, rest, position) + 1
            && docs[FirstAfter(sorters, docs, position)..] == rest[FirstAfter(sorters, rest, position)..]
  {
    hide DocOrder;
    assert ([first] + rest)[1..] == rest;
  }
}
