/**
 * Change-stream fan-out as incremental view maintenance: replaying the events of any run of writes
 * keeps each parent's list equal to the documents that name it.
 * packages/mongodb/src/MongodbRealtime.ts.
 *
 * Every change comes with its full pre-image and its full document. What `fromMongoId` makes of a
 * value is left open: every result is about any such `Naming`.
 */
module FanOut {
  import opened Wrappers
  import opened Documents

  type Naming = Value -> string

  // --- Routes ---

  /** One collection of a route and, unless it is the last, the field naming the parent above it. */
  datatype Level = Level(collection: string, field: Option<string>)

  datatype Route = Route(segments: seq<string>, collection: Option<string>, realtime: bool)

  /** A route being watched, under its ref without parameters. */
  datatype Watched = Watched(ref: string, levels: seq<Level>)

  predicate IsParam(segment: string) { segment != "" && segment[0] == ':' }

  function ParamField(segment: string): string
    requires IsParam(segment)
  {
    if segment[1..] == "id" then "_id" else segment[1..]
  }

  function Levels(segments: seq<string>): seq<Level> {
    if segments == [] then []
    else if |segments| == 1 then [Level(segments[0], None)]
    else
      var field := if IsParam(segments[1]) then Some(ParamField(segments[1])) else None;
      [Level(segments[0], field)] + Levels(segments[2..])
  }

  function Names(segments: seq<string>): seq<string> {
    if segments == [] then [] else (if IsParam(segments[0]) then [] else [segments[0]]) + Names(segments[1..])
  }

  /** `refs.join('/')` */
  function Path(refs: seq<string>): string {
    if refs == [] then "" else if |refs| == 1 then refs[0] else refs[0] + "/" + Path(refs[1..])
  }

  /** `#routeRefMetadata` */
  function Metadata(route: Route): Option<Watched> {
    if !route.realtime || route.collection.None? || Names(route.segments) == [] then None
    else Some(Watched(Path(Names(route.segments)), Levels(route.segments)))
  }

  /** `Map.set` of a ref: a later route takes the place of an earlier one. */
  function Put(paths: seq<Watched>, w: Watched): seq<Watched> {
    if paths == [] then [w]
    else if paths[0].ref == w.ref then [w] + paths[1..]
    else [paths[0]] + Put(paths[1..], w)
  }

  function PathsOf(routes: seq<Route>, table: string): seq<Watched> {
    if routes == [] then []
    else
      var before, route := PathsOf(routes[..|routes| - 1], table), routes[|routes| - 1];
      if Metadata(route).Some? && route.collection == Some(table) then Put(before, Metadata(route).value) else before
  }

  /** `#paths`, for one table. */
  method Paths(routes: seq<Route>, table: string) returns (paths: seq<Watched>)
    ensures paths == PathsOf(routes, table)
  {
    paths := [];
    for i := 0 to |routes|
      invariant paths == PathsOf(routes[..i], table)
    {
      var route, entry := routes[i], Metadata(routes[i]);
      assert routes[..i + 1][..i] == routes[..i];
      if entry.None? || route.collection != Some(table) {
        continue;
      }
      paths := Put(paths, entry.value);
    }
    assert routes[..|routes|] == routes;
  }

  // --- Changes ---

  datatype Kind = Added | Modified | Removed

  datatype Record = Record(id: Id, fields: Fields)

  /** `fields` are those an update names; every change knows at least its document's key. */
  datatype Event = Event(kind: Kind, new_data: Option<Record>, old_data: Record, fields: set<string>)

  predicate Hidden(name: string) { name == "id" || (name != "" && name[0] == '_') }

  /** `#reformatId` */
  function Public(fields: Fields): Fields {
    map name | name in fields && !Hidden(name) :: fields[name]
  }

  /** The pre-image under the new document. */
  function Merged(e: Event): Record {
    if e.new_data.None? then e.old_data else Record(e.new_data.value.id, e.old_data.fields + e.new_data.value.fields)
  }

  function NewFields(e: Event): Fields { if e.new_data.Some? then e.new_data.value.fields else map[] }

  function Texts(items: seq<Value>, text: Naming): seq<string> {
    seq(|items|, i requires 0 <= i < |items| => text(items[i]))
  }

  /** `toValues` of a field: the parents it names. */
  function Parents(fields: Fields, field: string, text: Naming): seq<string> {
    match FieldOf(fields, field)
    case None => []
    case Some(Null) => []
    case Some(Arr(items)) => Texts(items, text)
    case Some(value) => [text(value)]
  }

  /** The elements of a `Set`, in the order they were first met. */
  function Distinct(s: seq<string>): (r: seq<string>)
    ensures forall x :: x in r <==> x in s
    ensures r == [] <==> s == []
    ensures forall i, j :: 0 <= i < j < |r| ==> r[i] != r[j]
  {
    if s == [] then []
    else
      var before, last := Distinct(s[..|s| - 1]), s[|s| - 1];
      assert s == s[..|s| - 1] + [last];
      if last in before then before else before + [last]
  }

  /** A parent and what became of the document in its list. */
  datatype Seen = Seen(value: string, kind: Kind)

  function Diffed(value: string, before: seq<string>, after: seq<string>): Seen {
    Seen(value, if value in before && value in after then Modified else if value in after then Added else Removed)
  }

  function Diffs(before: seq<string>, after: seq<string>): seq<Seen> {
    var all := Distinct(before + after);
    seq(|all|, i requires 0 <= i < |all| => Diffed(all[i], before, after))
  }

  function Tagged(values: seq<string>, kind: Kind): seq<Seen> {
    seq(|values|, i requires 0 <= i < |values| => Seen(values[i], kind))
  }

  function Before(e: Event, field: string,
      text: Naming): seq<string> { Distinct(Parents(e.old_data.fields, field, text)) }

  function After(e: Event, field: string, text: Naming): seq<string> { Distinct(Parents(NewFields(e), field, text)) }

  function Resolved(e: Event, field: string, text: Naming): seq<Seen> {
    var before, after := Before(e, field, text), After(e, field, text);
    var values := if e.kind.Modified? then Diffs(before, after)
        else Tagged(if e.kind.Added? then after else before, e.kind);
    var merged := Parents(Merged(e).fields, field, text);
    if values != [] then values else Tagged(if merged != [] then merged else ["-"], e.kind)
  }

  /** One list the event concerns. */
  datatype Target = Target(refs: seq<string>, kind: Kind)

  /** A deeper parent only refines a ref the document stayed under. */
  function Refined(collection: string, seen: Seen, next: Target): Target {
    Target([collection, seen.value] + next.refs, if seen.kind.Modified? then next.kind else seen.kind)
  }

  function Beneath(collection: string, seen: Seen, deeper: seq<Target>): seq<Target> {
    seq(|deeper|, i requires 0 <= i < |deeper| => Refined(collection, seen, deeper[i]))
  }

  function Under(collection: string, seen: seq<Seen>, deeper: seq<Target>): seq<Target> {
    if seen == [] then []
        else Under(collection, seen[..|seen| - 1], deeper) + Beneath(collection, seen[|seen| - 1], deeper)
  }

  /** `buildRefs` */
  function BuildRefs(levels: seq<Level>, e: Event, text: Naming): seq<Target>
    requires levels != []
  {
    if |levels| == 1 || levels[0].field.None? then [Target([levels[0].collection], e.kind)]
    else Under(levels[0].collection, Resolved(e, levels[0].field.value, text), BuildRefs(levels[1..], e, text))
  }

  /** What a list is sent. A field without a value is one the document no longer has. */
  datatype Message = Message(ref: string, kind: Kind, id: Id, data: map<string, Option<Value>>)

  function Changes(e: Event): map<string, Option<Value>> {
    map name | name in Merged(e).fields && name in e.fields :: FieldOf(NewFields(e), name)
  }

  function Told(e: Event, target: Target): Message {
    var data: map<string, Option<Value>> :=
      match target.kind
      case Added => map name | name in Merged(e).fields :: Some(Merged(e).fields[name])
      case Modified => Changes(e)
      case Removed => map[];
    Message(Path(target.refs), target.kind, Merged(e).id, data)
  }

  function AllTold(e: Event, targets: seq<Target>): seq<Message> {
    seq(|targets|, i requires 0 <= i < |targets| => Told(e, targets[i]))
  }

  /** Every target of every watched route. */
  function Targets(paths: seq<Watched>, e: Event, text: Naming): seq<Target>
    requires forall w <- paths :: w.levels != []
  {
    if paths == [] then [] else Targets(paths[..|paths| - 1], e, text) + BuildRefs(paths[|paths| - 1].levels, e, text)
  }

  /** `#format` */
  function Format(paths: seq<Watched>, e: Event, text: Naming): seq<Message>
    requires forall w <- paths :: w.levels != []
  {
    AllTold(e, Targets(paths, e, text))
  }

  // --- A list following the messages of its ref ---

  type List = map<Id, Fields>

  /** What arrives: JSON drops a field without a value. */
  function Present(data: map<string, Option<Value>>): Fields {
    map name | name in data && data[name].Some? :: data[name].value
  }

  function Applied(list: List, m: Message): List {
    match m.kind
    case Added => list[m.id := Present(m.data)]
    case Modified => if m.id in list then list[m.id := list[m.id] + Present(m.data)] else list
    case Removed => list - {m.id}
  }

  function Replayed(list: List, messages: seq<Message>, ref: string): List {
    if messages == [] then list
    else
      var before, m := Replayed(list, messages[..|messages| - 1], ref), messages[|messages| - 1];
      if m.ref == ref then Applied(before, m) else before
  }

  // --- Refs are read back ---

  predicate Plain(s: string) { '/' !in s }

  lemma HeadEnds(refs: seq<string>)
    requires refs != [] && Plain(refs[0])
    ensures |refs[0]| <= |Path(refs)| && Path(refs)[..|refs[0]|] == refs[0]
    ensures forall k :: 0 <= k < |refs[0]| ==> Path(refs)[k] != '/'
    ensures |refs| == 1 <==> |Path(refs)| == |refs[0]|
    ensures |refs| > 1 ==> Path(refs)[|refs[0]|] == '/' && Path(refs)[|refs[0]| + 1..] == Path(refs[1..])
  {
    forall k | 0 <= k < |refs[0]|
      ensures Path(refs)[k] != '/'
    {
      assert Path(refs)[k] == refs[0][k];
    }
  }

  /** Segments without a slash are all there is in their path. */
  lemma {:induction false} PathIsRead(a: seq<string>, b: seq<string>)
    requires a != [] && b != [] && Path(a) == Path(b)
    requires (forall s <- a :: Plain(s)) && (forall s <- b :: Plain(s))
    ensures a == b
  {
    HeadEnds(a);
    HeadEnds(b);
    assert a[0] == b[0] && (|a| == 1 <==> |b| == 1) by { hide Path; }
    if |a| > 1 {
      PathIsRead(a[1..], b[1..]);
      assert a == [a[0]] + a[1..] && b == [b[0]] + b[1..];
    }
  }

  // --- Routes alternate collections and parameters ---

  predicate Alternates(segments: seq<string>) {
    && segments != []
    && !IsParam(segments[0]) && Plain(segments[0])
    && (|segments| > 1 ==> IsParam(segments[1]) && Alternates(segments[2..]))
  }

  /** Every level but the last names a parent. */
  predicate Tidy(levels: seq<Level>) {
    && levels != []
    && Plain(levels[0].collection)
    && (|levels| > 1 ==> levels[0].field.Some? && Tidy(levels[1..]))
  }

  function Collections(levels: seq<Level>): seq<string> {
    if levels == [] then [] else [levels[0].collection] + Collections(levels[1..])
  }

  predicate TidyPaths(paths: seq<Watched>) {
    && (forall w <- paths :: Tidy(w.levels) && w.ref == Path(Collections(w.levels)))
    && (forall i, j :: 0 <= i < j < |paths| ==> paths[i].ref != paths[j].ref)
  }

  lemma TwoSegments(segments: seq<string>)
    requires |segments| > 1 && !IsParam(segments[0]) && IsParam(segments[1])
    ensures Levels(segments) == [Level(segments[0], Some(ParamField(segments[1])))] + Levels(segments[2..])
    ensures Names(segments) == [segments[0]] + Names(segments[2..])
  {
    assert segments[1..][1..] == segments[2..];
  }

  lemma OneLevelMore(level: Level, rest: seq<Level>)
    requires Plain(level.collection) && level.field.Some? && Tidy(rest)
    ensures Tidy([level] + rest) && Collections([level] + rest) == [level.collection] + Collections(rest)
  {
    assert ([level] + rest)[1..] == rest;
  }

  lemma {:induction false} AlternatingIsTidy(segments: seq<string>)
    requires Alternates(segments)
    ensures Tidy(Levels(segments)) && Collections(Levels(segments)) == Names(segments) != []
    decreases |segments|
  {
    if |segments| > 1 {
      AlternatingIsTidy(segments[2..]);
      TwoSegments(segments);
      OneLevelMore(Level(segments[0], Some(ParamField(segments[1]))), Levels(segments[2..]));
      hide *;
    }
  }

  lemma {:induction false} PutIs(paths: seq<Watched>, w: Watched)
    requires forall i, j :: 0 <= i < j < |paths| ==> paths[i].ref != paths[j].ref
    ensures forall x :: x in Put(paths, w) <==> x == w || (x in paths && x.ref != w.ref)
    ensures forall i, j :: 0 <= i < j < |Put(paths, w)| ==> Put(paths, w)[i].ref != Put(paths, w)[j].ref
  {
    if paths != [] {
      assert paths == [paths[0]] + paths[1..];
      if paths[0].ref != w.ref {
        PutIs(paths[1..], w);
      }
    }
  }

  /** What is watched for a table: one entry a ref, each that of a route of the table. */
  lemma {:induction false} PathsAreTidy(routes: seq<Route>, table: string)
    requires forall route <- routes :: Alternates(route.segments)
    ensures TidyPaths(PathsOf(routes, table))
  {
    if routes != [] {
      var route := routes[|routes| - 1];
      PathsAreTidy(routes[..|routes| - 1], table);
      AlternatingIsTidy(route.segments);
      if Metadata(route).Some? {
        PutIs(PathsOf(routes[..|routes| - 1], table), Metadata(route).value);
      }
      hide Tidy, Levels, Names, Collections, Put;
    }
  }

  // --- No list is told twice ---

  /** An insert has no pre-image but its key, a delete no new document. */
  predicate Whole(e: Event) {
    && (e.kind.Added? ==> e.old_data.fields == map[])
    && (e.kind.Removed? ==> e.new_data.None?)
  }

  /** No parent the document names, or named, has a slash in its id. */
  predicate PlainParents(e: Event, field: string, text: Naming) {
    && (forall v <- Parents(e.old_data.fields, field, text) :: Plain(v))
    && (forall v <- Parents(NewFields(e), field, text) :: Plain(v))
  }

  predicate PlainLevels(e: Event, levels: seq<Level>, text: Naming) {
    forall l <- levels :: l.field.Some? ==> PlainParents(e, l.field.value, text)
  }

  /** What becomes of the document in the list of parent `p`. */
  function KindFor(e: Event, field: string, text: Naming, p: string): Option<Kind> {
    var before, after := p in Before(e, field, text), p in After(e, field, text);
    match e.kind
    case Modified => if before && after then Some(Modified) else if after then Some(Added) else if before
        then Some(Removed) else None
    case Added => if after then Some(Added) else None
    case Removed => if before then Some(Removed) else None
  }

  predicate EachOnce(seen: seq<Seen>) {
    forall i, j :: 0 <= i < j < |seen| ==> seen[i].value != seen[j].value
  }

  lemma TaggedOnce(values: seq<string>, kind: Kind)
    requires forall i, j :: 0 <= i < j < |values| ==> values[i] != values[j]
    ensures EachOnce(Tagged(values, kind))
    ensures forall s: Seen :: s in Tagged(values, kind) <==> s.value in values && s.kind == kind
  {
    forall s: Seen | s.value in values && s.kind == kind
      ensures s in Tagged(values, kind)
    {
      var i :| 0 <= i < |values| && values[i] == s.value;
      assert Tagged(values, kind)[i] == s;
    }
  }

  lemma DiffsOnce(before: seq<string>, after: seq<string>)
    ensures EachOnce(Diffs(before, after))
    ensures forall s: Seen :: s in Diffs(before, after) <==>
        (s.value in before || s.value in after) && s == Diffed(s.value, before, after)
    ensures Diffs(before, after) == [] <==> before == [] && after == []
  {
    var all := Distinct(before + after);
    assert forall v :: v in all <==> v in before || v in after;
    forall s: Seen | (s.value in before || s.value in after) && s == Diffed(s.value, before, after)
      ensures s in Diffs(before, after)
    {
      var i :| 0 <= i < |all| && all[i] == s.value;
      assert Diffs(before, after)[i] == s;
    }
    hide Distinct, Diffed;
  }

  /** A document that resolves to no parent names none, now or before. */
  lemma NoOthers(e: Event, field: string, text: Naming)
    requires Whole(e)
    requires e.kind.Modified? ==> Before(e, field, text) == [] && After(e, field, text) == []
    requires e.kind.Added? ==> After(e, field, text) == []
    requires e.kind.Removed? ==> Before(e, field, text) == []
    ensures Parents(Merged(e).fields, field, text) == []
  {
    hide Distinct;
  }

  /** Nobody is named: neither before nor after, as far as the kind of event looks. */
  predicate NamesNobody(e: Event, field: string, text: Naming) {
    && (e.kind.Added? || Before(e, field, text) == [])
    && (e.kind.Removed? || After(e, field, text) == [])
  }

  lemma TaggedOne(kind: Kind)
    ensures Tagged(["-"], kind) == [Seen("-", kind)] && Tagged([], kind) == []
  {
  }

  lemma NobodyResolved(e: Event, field: string, text: Naming)
    requires Whole(e) && NamesNobody(e, field, text)
    ensures Resolved(e, field, text) == [Seen("-", e.kind)]
  {
    NoOthers(e, field, text);
    DiffsOnce([], []);
    TaggedOne(e.kind);
    hide Diffs, Before, After, Parents, Tagged, Merged;
  }

  lemma SomebodyResolved(e: Event, field: string, text: Naming)
    requires Whole(e) && !NamesNobody(e, field, text)
    ensures EachOnce(Resolved(e, field, text)) && Resolved(e, field, text) != []
    ensures forall s: Seen :: s in Resolved(e, field, text) <==> KindFor(e, field, text, s.value) == Some(s.kind)
  {
    var before, after := Before(e, field, text), After(e, field, text);
    if e.kind.Modified? {
      DiffsOnce(before, after);
    } else {
      var values := if e.kind.Added? then after else before;
      TaggedOnce(values, e.kind);
      assert Seen(values[0], e.kind) in Tagged(values, e.kind);
    }
    hide Diffs, Before, After, Parents, Tagged;
  }

  /**
   * The parents an event is resolved to, each once: exactly those named before or after, with what happened
   * under them. Only a document that names and named none goes to the placeholder.
   */
  lemma ResolvedOnce(e: Event, field: string, text: Naming)
    requires Whole(e)
    ensures EachOnce(Resolved(e, field, text))
    ensures NamesNobody(e, field, text) <==> forall p :: KindFor(e, field, text, p).None?
    ensures if NamesNobody(e, field, text) then Resolved(e, field, text) == [Seen("-", e.kind)]
        else forall s: Seen :: s in Resolved(e, field, text) <==> KindFor(e, field, text, s.value) == Some(s.kind)
  {
    if NamesNobody(e, field, text) {
      NobodyResolved(e, field, text);
      hide Before, After, Resolved;
    } else {
      SomebodyResolved(e, field, text);
      hide NamesNobody, KindFor, Resolved;
      var s := Resolved(e, field, text)[0];
      assert KindFor(e, field, text, s.value).Some?;
    }
  }

  lemma ResolvedAre(e: Event, field: string, text: Naming)
    requires Whole(e)
    ensures EachOnce(Resolved(e, field, text))
    ensures forall s <- Resolved(e, field, text) :: s.value == "-" || KindFor(e, field, text, s.value) == Some(s.kind)
    ensures forall p :: KindFor(e, field, text, p).Some? ==>
        Seen(p, KindFor(e, field, text, p).value) in Resolved(e, field, text)
  {
    ResolvedOnce(e, field, text);
    hide Resolved, KindFor, NamesNobody;
  }

  predicate Apart(targets: seq<Target>) {
    forall i, j :: 0 <= i < j < |targets| ==> targets[i].refs != targets[j].refs
  }

  lemma {:induction false} UnderHas(collection: string, seen: seq<Seen>, deeper: seq<Target>)
    ensures forall s, d :: s in seen && d in deeper ==> Refined(collection, s, d) in Under(collection, seen, deeper)
    ensures forall t <- Under(collection, seen, deeper) :: exists s, d ::
        s in seen && d in deeper && t == Refined(collection, s, d)
  {
    if seen != [] {
      var before, last := seen[..|seen| - 1], seen[|seen| - 1];
      UnderHas(collection, before, deeper);
      assert seen == before + [last];
      BeneathHas(collection, last, deeper);
      hide Refined, Beneath;
    }
  }

  lemma BeneathHas(collection: string, seen: Seen, deeper: seq<Target>)
    ensures forall d <- deeper :: Refined(collection, seen, d) in Beneath(collection, seen, deeper)
    ensures forall t <- Beneath(collection, seen, deeper) :: exists d ::
        d in deeper && t == Refined(collection, seen, d)
  {
    hide Refined;
    forall d <- deeper
      ensures Refined(collection, seen, d) in Beneath(collection, seen, deeper)
    {
      var i :| 0 <= i < |deeper| && deeper[i] == d;
      assert Beneath(collection, seen, deeper)[i] == Refined(collection, seen, d);
    }
  }

  lemma BeneathApart(collection: string, seen: Seen, deeper: seq<Target>)
    requires Apart(deeper)
    ensures Apart(Beneath(collection, seen, deeper))
  {
    var all := Beneath(collection, seen, deeper);
    forall i, j | 0 <= i < j < |all|
      ensures all[i].refs != all[j].refs
    {
      assert all[i].refs[2..] == deeper[i].refs && all[j].refs[2..] == deeper[j].refs;
    }
  }

  lemma BothApart(a: seq<Target>, b: seq<Target>)
    requires Apart(a) && Apart(b)
    requires forall s, t :: s in a && t in b ==> s.refs != t.refs
    ensures Apart(a + b)
  {
  }

  lemma {:induction false} UnderApart(collection: string, seen: seq<Seen>, deeper: seq<Target>)
    requires EachOnce(seen) && Apart(deeper)
    ensures Apart(Under(collection, seen, deeper))
  {
    if seen != [] {
      var before, last := seen[..|seen| - 1], seen[|seen| - 1];
      UnderApart(collection, before, deeper);
      BeneathApart(collection, last, deeper);
      UnderHas(collection, before, deeper);
      BeneathHas(collection, last, deeper);
      var a, b := Under(collection, before, deeper), Beneath(collection, last, deeper);
      forall s, t | s in a && t in b
        ensures s.refs != t.refs
      {
        var was, d :| was in before && d in deeper && s == Refined(collection, was, d);
        assert was.value != last.value;
        assert s.refs[1] == was.value && t.refs[1] == last.value;
      }
      BothApart(a, b);
    }
  }

  lemma {:induction false} BuildRefsApart(levels: seq<Level>, e: Event, text: Naming)
    requires levels != [] && Whole(e)
    ensures Apart(BuildRefs(levels, e, text))
  {
    if |levels| > 1 && levels[0].field.Some? {
      BuildRefsApart(levels[1..], e, text);
      ResolvedAre(e, levels[0].field.value, text);
      UnderApart(levels[0].collection, Resolved(e, levels[0].field.value, text), BuildRefs(levels[1..], e, text));
    }
  }

  /** Refs of a route: its collections, a parent between any two. */
  predicate Shaped(levels: seq<Level>, refs: seq<string>) {
    && levels != [] && |refs| == 2 * |levels| - 1
    && refs[0] == levels[0].collection
    && (|levels| > 1 ==> Shaped(levels[1..], refs[2..]))
  }

  lemma ResolvedPlain(e: Event, field: string, text: Naming)
    requires Whole(e) && PlainParents(e, field, text)
    ensures forall s <- Resolved(e, field, text) :: Plain(s.value)
  {
    ResolvedAre(e, field, text);
    assert Plain("-");
    hide Resolved, Plain, Parents;
  }

  lemma {:induction false} BuildRefsShape(levels: seq<Level>, e: Event, text: Naming)
    requires Tidy(levels) && Whole(e) && PlainLevels(e, levels, text)
    ensures forall t <- BuildRefs(levels, e, text) :: Shaped(levels, t.refs) && forall r <- t.refs :: Plain(r)
  {
    if |levels| > 1 {
      BuildRefsShape(levels[1..], e, text);
      var seen, deeper := Resolved(e, levels[0].field.value, text), BuildRefs(levels[1..], e, text);
      assert levels[0] in levels;
      ResolvedPlain(e, levels[0].field.value, text);
      UnderHas(levels[0].collection, seen, deeper);
      hide Resolved, Plain, Under, Refined, PlainParents;
      forall t <- BuildRefs(levels, e, text)
        ensures Shaped(levels, t.refs) && forall r <- t.refs :: Plain(r)
      {
        var s, d :| s in seen && d in deeper && t == Refined(levels[0].collection, s, d);
        RefinedShape(levels, s, d);
      }
    }
  }

  lemma RefinedShape(levels: seq<Level>, s: Seen, d: Target)
    requires Tidy(levels) && |levels| > 1 && Shaped(levels[1..], d.refs) && Plain(s.value)
        && forall r <- d.refs :: Plain(r)
    ensures var refs := Refined(levels[0].collection, s, d).refs; Shaped(levels, refs) && forall r <- refs :: Plain(r)
  {
    assert Refined(levels[0].collection, s, d).refs[2..] == d.refs;
    hide Plain;
  }

  lemma {:induction false} ShapeTells(a: seq<Level>, b: seq<Level>, refs: seq<string>)
    requires Shaped(a, refs) && Shaped(b, refs)
    ensures Collections(a) == Collections(b)
  {
    if |a| > 1 {
      ShapeTells(a[1..], b[1..], refs[2..]);
    }
  }

  predicate PlainPaths(e: Event, paths: seq<Watched>, text: Naming) {
    forall w <- paths :: PlainLevels(e, w.levels, text)
  }

  lemma {:induction false} TargetsApart(paths: seq<Watched>, e: Event, text: Naming)
    requires TidyPaths(paths) && Whole(e) && PlainPaths(e, paths, text)
    ensures Apart(Targets(paths, e, text))
    ensures forall t <- Targets(paths, e, text) ::
        t.refs != [] && (forall r <- t.refs :: Plain(r)) && exists w :: w in paths && Shaped(w.levels, t.refs)
  {
    if paths != [] {
      var before, last := paths[..|paths| - 1], paths[|paths| - 1];
      TargetsApart(before, e, text);
      BuildRefsApart(last.levels, e, text);
      BuildRefsShape(last.levels, e, text);
      var a, b := Targets(before, e, text), BuildRefs(last.levels, e, text);
      forall s, t | s in a && t in b
        ensures s.refs != t.refs
      {
        var w :| w in before && Shaped(w.levels, s.refs);
        if s.refs == t.refs {
          ShapeTells(w.levels, last.levels, s.refs);
        }
      }
      BothApart(a, b);
    }
  }

  /** No list hears of one change twice. */
  lemma NoListToldTwice(routes: seq<Route>, table: string, e: Event, text: Naming)
    requires forall route <- routes :: Alternates(route.segments)
    requires Whole(e) && PlainPaths(e, PathsOf(routes, table), text)
    ensures TidyPaths(PathsOf(routes, table))
    ensures var messages := Format(PathsOf(routes, table), e, text);
            forall i, j :: 0 <= i < j < |messages| ==> messages[i].ref != messages[j].ref
  {
    PathsAreTidy(routes, table);
    ToldApart(PathsOf(routes, table), e, text);
  }

  lemma ToldApart(paths: seq<Watched>, e: Event, text: Naming)
    requires TidyPaths(paths) && Whole(e) && PlainPaths(e, paths, text)
    ensures var messages := Format(paths, e, text);
            forall i, j :: 0 <= i < j < |messages| ==> messages[i].ref != messages[j].ref
  {
    var targets, messages := Targets(paths, e, text), Format(paths, e, text);
    TargetsApart(paths, e, text);
    hide Targets, Path, Plain, Shaped, Tidy;
    forall i, j | 0 <= i < j < |messages|
      ensures messages[i].ref != messages[j].ref
    {
      assert targets[i] in targets && targets[j] in targets;
      if messages[i].ref == messages[j].ref {
        PathIsRead(targets[i].refs, targets[j].refs);
      }
    }
  }

  // --- What the list of one parent is told ---

  /** A route with one parent field, `c/:f/d`. */
  function OneParent(c: string, f: string, d: string): seq<Level> {
    [Level(c, Some(f)), Level(d, None)]
  }

  lemma {:induction false} TargetsAre(paths: seq<Watched>, e: Event, text: Naming)
    requires forall w <- paths :: w.levels != []
    ensures forall t :: t in Targets(paths, e, text) <==> exists w :: w in paths && t in BuildRefs(w.levels, e, text)
  {
    if paths != [] {
      TargetsAre(paths[..|paths| - 1], e, text);
      assert paths == paths[..|paths| - 1] + [paths[|paths| - 1]];
      hide BuildRefs;
    }
  }

  lemma OneParentRefs(c: string, f: string, d: string, e: Event, text: Naming)
    ensures forall t: Target :: t in BuildRefs(OneParent(c, f, d), e, text) <==>
              exists s :: s in Resolved(e, f, text) && t == Refined(c, s, Target([d], e.kind))
  {
    var levels := OneParent(c, f, d);
    assert levels[1..] == [Level(d, None)];
    UnderHas(c, Resolved(e, f, text), [Target([d], e.kind)]);
    assert BuildRefs(levels, e, text) == Under(c, Resolved(e, f, text), [Target([d], e.kind)]);
    hide Resolved, Refined, Under;
    assert Target([d], e.kind) in [Target([d], e.kind)];
  }

  lemma OneParentTold(c: string, f: string, d: string, e: Event, text: Naming, p: string, t: Target)
    requires Whole(e) && p != "-" && t.refs == [c, p, d]
    ensures t in BuildRefs(OneParent(c, f, d), e, text) <==> KindFor(e, f, text, p) == Some(t.kind)
  {
    OneParentRefs(c, f, d, e, text);
    ResolvedAre(e, f, text);
    hide BuildRefs, Resolved, Tagged, Diffs;
    if KindFor(e, f, text, p) == Some(t.kind) {
      var s := Seen(p, t.kind);
      assert s in Resolved(e, f, text) && t == Refined(c, s, Target([d], e.kind));
    }
    if t in BuildRefs(OneParent(c, f, d), e, text) {
      var s :| s in Resolved(e, f, text) && t == Refined(c, s, Target([d], e.kind));
      assert t.refs[1] == s.value;
    }
  }

  /** Only the route of a list emits its refs. */
  lemma OnlyItsRoute(paths: seq<Watched>, w: Watched, other: Watched, e: Event, text: Naming, t: Target)
    requires TidyPaths(paths) && Whole(e) && PlainPaths(e, paths, text)
    requires w in paths && other in paths && Shaped(w.levels, t.refs) && t in BuildRefs(other.levels, e, text)
    ensures other == w
  {
    BuildRefsShape(other.levels, e, text);
    ShapeTells(other.levels, w.levels, t.refs);
    hide BuildRefs, Shaped, Collections, Tidy;
  }

  /** The list of parent `p` is told of the change just as `p` came, stayed or went. */
  lemma ParentIsTold(paths: seq<Watched>, w: Watched, c: string, f: string, d: string, e: Event, text: Naming,
      p: string, t: Target)
    requires TidyPaths(paths) && Whole(e) && PlainPaths(e, paths, text)
    requires w in paths && w.levels == OneParent(c, f, d) && p != "-" && t.refs == [c, p, d]
    ensures t in Targets(paths, e, text) <==> KindFor(e, f, text, p) == Some(t.kind)
  {
    TargetsAre(paths, e, text);
    OneParentTold(c, f, d, e, text, p, t);
    assert Shaped(w.levels, t.refs) by { assert w.levels[1..] == [Level(d, None)] && t.refs[2..] == [d]; }
    hide BuildRefs, KindFor, Shaped, Tidy;
    if t in Targets(paths, e, text) {
      var other :| other in paths && t in BuildRefs(other.levels, e, text);
      OnlyItsRoute(paths, w, other, e, text, t);
    }
  }

  lemma {:induction false} ReplayedOnce(list: List, messages: seq<Message>, ref: string, i: nat)
    requires i < |messages| && messages[i].ref == ref
    requires forall j :: 0 <= j < |messages| && j != i ==> messages[j].ref != ref
    ensures Replayed(list, messages, ref) == Applied(list, messages[i])
  {
    if i == |messages| - 1 {
      ReplayedNone(list, messages[..i], ref);
    } else {
      ReplayedOnce(list, messages[..|messages| - 1], ref, i);
    }
  }

  lemma {:induction false} ReplayedNone(list: List, messages: seq<Message>, ref: string)
    requires forall m <- messages :: m.ref != ref
    ensures Replayed(list, messages, ref) == list
  {
    if messages != [] {
      ReplayedNone(list, messages[..|messages| - 1], ref);
    }
  }

  /** What one change does to the list of parent `p`. */
  function Heard(list: List, e: Event, f: string, text: Naming, p: string, refs: seq<string>): List {
    var kind := KindFor(e, f, text, p);
    if kind.None? then list else Applied(list, Told(e, Target(refs, kind.value)))
  }

  lemma ListHears(paths: seq<Watched>, w: Watched, c: string, f: string, d: string, e: Event, text: Naming, p: string,
      list: List)
    requires TidyPaths(paths) && Whole(e) && PlainPaths(e, paths, text)
    requires w in paths && w.levels == OneParent(c, f, d) && p != "-" && Plain(p)
    ensures Replayed(list, Format(paths, e, text), Path([c, p, d])) == Heard(list, e, f, text, p, [c, p, d])
  {
    var targets, messages := Targets(paths, e, text), Format(paths, e, text);
    var refs := [c, p, d];
    var kind := KindFor(e, f, text, p);
    if kind.Some? {
      var t := Target(refs, kind.value);
      ParentIsTold(paths, w, c, f, d, e, text, p, t);
      var i :| 0 <= i < |targets| && targets[i] == t;
      ToldApart(paths, e, text);
      ToldIs(e, t);
      assert messages[i] == Told(e, t);
      ReplayedOnce(list, messages, Path(refs), i);
    } else {
      forall m <- messages
        ensures m.ref != Path(refs)
      {
        var i :| 0 <= i < |messages| && messages[i] == m;
        ToldIs(e, targets[i]);
        OthersElsewhere(paths, w, c, f, d, e, text, p, targets[i]);
      }
      ReplayedNone(list, messages, Path(refs));
    }
    hide Targets, Told, Path, KindFor, Applied, Replayed, TidyPaths, PlainPaths, Whole, Plain, OneParent;
  }

  lemma OneParentPlain(levels: seq<Level>, c: string, f: string, d: string)
    requires Tidy(levels) && levels == OneParent(c, f, d)
    ensures Plain(c) && Plain(d)
  {
    assert levels[1..] == [Level(d, None)];
    hide Plain;
  }

  lemma OthersElsewhere(paths: seq<Watched>, w: Watched, c: string, f: string, d: string, e: Event, text: Naming,
      p: string, t: Target)
    requires TidyPaths(paths) && Whole(e) && PlainPaths(e, paths, text)
    requires w in paths && w.levels == OneParent(c, f, d) && p != "-" && Plain(p)
    requires t in Targets(paths, e, text) && KindFor(e, f, text, p).None?
    ensures Path(t.refs) != Path([c, p, d])
  {
    TargetsApart(paths, e, text);
    OneParentPlain(w.levels, c, f, d);
    if Path(t.refs) == Path([c, p, d]) {
      PathIsRead(t.refs, [c, p, d]);
      ParentIsTold(paths, w, c, f, d, e, text, p, t);
    }
    hide Targets, Path, KindFor, Plain, TidyPaths, PlainPaths, Whole;
  }

  lemma ToldIs(e: Event, t: Target)
    ensures Told(e, t).ref == Path(t.refs) && Told(e, t).kind == t.kind && Told(e, t).id == Merged(e).id
  {
  }

  // --- Runs of writes ---

  type Db = map<Id, Fields>

  /** An update names the fields it touches; a replacement names none. */
  datatype Write =
    | Insert(id: Id, fields: Fields)
    | Update(id: Id, fields: Fields, touched: set<string>)
    | Replace(id: Id, fields: Fields)
    | Delete(id: Id)

  predicate Describes(old_: Fields, new_: Fields, touched: set<string>) {
    forall name <- old_.Keys + new_.Keys :: FieldOf(old_, name) != FieldOf(new_, name) ==> name in touched
  }

  predicate Possible(db: Db, w: Write) {
    && (w.Insert? <==> w.id !in db)
    && (w.Update? ==> Describes(db[w.id], w.fields, w.touched))
  }

  function Written(db: Db, w: Write): Db {
    if w.Delete? then db - {w.id} else db[w.id := w.fields]
  }

  function Stored(db: Db, id: Id): Fields { if id in db then Public(db[id]) else map[] }

  /** What the change stream and `#reformatId` make of a write. */
  function EventOf(db: Db, w: Write): Event {
    var before := Record(w.id, Stored(db, w.id));
    match w
    case Insert(id, fields) => Event(Added, Some(Record(id, Public(fields))), before, {})
    case Update(id, fields, touched) => Event(Modified, Some(Record(id, Public(fields))), before,
        set name <- touched | name == "" || name[0] != '_')
    case Replace(id, fields) => Event(Modified, Some(Record(id, Public(fields))), before, {})
    case Delete(id) => Event(Removed, None, before, {})
  }

  /** The documents that name parent `p`, as they read. */
  function Listed(db: Db, f: string, text: Naming, p: string): List {
    map id | id in db && p in Parents(Public(db[id]), f, text) :: Public(db[id])
  }

  predicate Named(fields: Fields, f: string, text: Naming, p: string) { p in Parents(fields, f, text) }

  /** The stored document belongs under `p`: its field holds a value that reads `p`, or an array with one that does. */
  ghost predicate Belongs(fields: Fields, f: string, text: Naming, p: string) {
    && f in fields && f != "id" && (f == "" || f[0] != '_')
    && match fields[f]
       case Null => false
       case Arr(items) => exists item <- items :: text(item) == p
       case value => text(value) == p
  }

  /** The list of `p` is of the documents that belong under it, without `id` and their private fields. */
  lemma ListedAre(db: Db, f: string, text: Naming, p: string, id: Id)
    ensures id in Listed(db, f, text, p) <==> id in db && Belongs(db[id], f, text, p)
    ensures id in Listed(db, f, text, p) ==> forall name ::
              FieldOf(Listed(db, f, text, p)[id], name)
              == if name == "id" || (name != "" && name[0] == '_') then None else FieldOf(db[id], name)
  {
    if id in db { NamedBelongs(db[id], f, text, p); }
    hide Parents;
  }

  lemma NamedBelongs(fields: Fields, f: string, text: Naming, p: string)
    ensures Named(Public(fields), f, text, p) <==> Belongs(fields, f, text, p)
  {
    if f in Public(fields) && fields[f].Arr? {
      var items := fields[f].items;
      if item :| item in items && text(item) == p {
        var i :| 0 <= i < |items| && items[i] == item;
        assert Texts(items, text)[i] == p;
      }
    }
  }

  lemma EventIs(db: Db, w: Write, f: string, text: Naming, p: string)
    requires Possible(db, w)
    ensures Whole(EventOf(db, w)) && Merged(EventOf(db, w)).id == w.id
    ensures var e, was := EventOf(db, w), Named(Stored(db, w.id), f, text, p);
            var now := !w.Delete? && Named(Public(w.fields), f, text, p);
            KindFor(e, f, text, p) == if was && now then Some(Modified) else if now then Some(Added) else if was
              then Some(Removed) else None
  {
    hide Distinct;
  }

  /** Which documents are in a parent's list after a write. */
  lemma ListedAfter(db: Db, w: Write, f: string, text: Naming, p: string)
    requires Possible(db, w)
    ensures var now := !w.Delete? && Named(Public(w.fields), f, text, p);
            Listed(Written(db, w), f, text, p) == if now then Listed(db, f, text, p)[w.id := Public(w.fields)]
              else Listed(db, f, text, p) - {w.id}
    ensures w.id in Listed(db, f, text, p) <==> w.id in db && Named(Stored(db, w.id), f, text, p)
    ensures w.id in Listed(db, f, text, p) ==> Listed(db, f, text, p)[w.id] == Stored(db, w.id)
  {
    hide Parents, Public, Describes;
    var now := !w.Delete? && Named(Public(w.fields), f, text, p);
    var after, list := Listed(Written(db, w), f, text, p), Listed(db, f, text, p);
    var expected := if now then list[w.id := Public(w.fields)] else list - {w.id};
    assert after.Keys == expected.Keys;
    assert forall id <- after :: after[id] == expected[id];
  }

  /** After any write, following the messages keeps in the list exactly the documents that name the parent. */
  lemma WriteKeepsMembers(db: Db, w: Write, f: string, text: Naming, p: string, list: List, refs: seq<string>)
    requires Possible(db, w) && list.Keys == Listed(db, f, text, p).Keys
    ensures Heard(list, EventOf(db, w), f, text, p, refs).Keys == Listed(Written(db, w), f, text, p).Keys
  {
    EventIs(db, w, f, text, p);
    ListedAfter(db, w, f, text, p);
    hide EventOf, KindFor, Listed, Written, Named;
  }

  /**
   * Whether the list of `p` reads what was written. A replacement of a document that stays names no
   * fields, so it must change none. Anything else must remove none: of an update the removed fields do not
   * arrive, and a document that joins is announced with its old fields under the new ones.
   */
  predicate Faithful(db: Db, w: Write, f: string, text: Naming, p: string) {
    (w.Update? || w.Replace?) && Named(Public(w.fields), f, text, p) ==>
      if w.Replace? && Named(Stored(db, w.id), f, text, p) then Stored(db, w.id) == Public(w.fields)
      else Stored(db, w.id).Keys <= Public(w.fields).Keys
  }

  lemma StayedReads(db: Db, w: Write, refs: seq<string>)
    requires Possible(db, w) && (w.Update? || w.Replace?)
    ensures var read := Stored(db, w.id) + Present(Told(EventOf(db, w), Target(refs, Modified)).data);
            read == if w.Update? then Stored(db, w.id) + Public(w.fields) else Stored(db, w.id)
  {
    var e, before := EventOf(db, w), Stored(db, w.id);
    var read := before + Present(Changes(e));
    if w.Update? {
      forall name
        ensures FieldOf(read, name) == FieldOf(before + Public(w.fields), name)
      {
      }
      SameFields(read, before + Public(w.fields));
    } else {
      SameFields(read, before);
    }
  }

  lemma JoinedReads(db: Db, w: Write, refs: seq<string>)
    requires Possible(db, w) && !w.Delete?
    ensures var read := Present(Told(EventOf(db, w), Target(refs, Added)).data);
            read == Stored(db, w.id) + Public(w.fields)
    ensures Stored(db, w.id) + Public(w.fields) == Public(w.fields) <==> Stored(db, w.id).Keys <= Public(w.fields).Keys
  {
    var both := Stored(db, w.id) + Public(w.fields);
    assert both.Keys == Stored(db, w.id).Keys + Public(w.fields).Keys;
    SameFields(Present(Told(EventOf(db, w), Target(refs, Added)).data), both);
    hide Stored, Public;
  }

  /** What the list of `p` then reads of a document that names `p`. */
  function ReadAs(db: Db, w: Write, f: string, text: Naming, p: string): Fields
    requires !w.Delete?
  {
    if w.Replace? && Named(Stored(db, w.id), f, text, p) then Stored(db, w.id)
    else Stored(db, w.id) + Public(w.fields)
  }

  lemma HeardIs(db: Db, w: Write, f: string, text: Naming, p: string, refs: seq<string>)
    requires Possible(db, w)
    ensures var list := Listed(db, f, text, p);
            Heard(list, EventOf(db, w), f, text, p, refs) ==
              if !w.Delete? && Named(Public(w.fields), f, text, p) then list[w.id := ReadAs(db, w, f, text, p)]
                  else list - {w.id}
  {
    var list, e := Listed(db, f, text, p), EventOf(db, w);
    EventIs(db, w, f, text, p);
    ListedAfter(db, w, f, text, p);
    NotNamed(db, w, f, text, p);
    hide EventOf, KindFor, Listed, Named, Stored, Public, Present, Changes, Merged, Told, Possible, Applied;
    var kind := KindFor(e, f, text, p);
    if kind.None? {
      assert list - {w.id} == list;
    } else {
      var m := Told(e, Target(refs, kind.value));
      ToldIs(e, Target(refs, kind.value));
      AppliedIs(list, m);
      if kind.value.Added? {
        JoinedReads(db, w, refs);
      } else if kind.value.Modified? {
        StayedReads(db, w, refs);
      }
    }
  }

  lemma AppliedIs(list: List, m: Message)
    ensures m.kind.Added? ==> Applied(list, m) == list[m.id := Present(m.data)]
    ensures m.kind.Modified? && m.id in list ==> Applied(list, m) == list[m.id := list[m.id] + Present(m.data)]
    ensures m.kind.Removed? ==> Applied(list, m) == list - {m.id}
  {
  }

  lemma NotNamed(db: Db, w: Write, f: string, text: Naming, p: string)
    requires Possible(db, w)
    ensures w.Insert? ==> !Named(Stored(db, w.id), f, text, p)
  {
  }

  lemma OneEntry(list: List, id: Id, a: Fields, b: Fields)
    ensures list[id := a] == list[id := b] <==> a == b
  {
    if list[id := a] == list[id := b] {
      assert list[id := a][id] == a;
    }
  }

  /** The list follows a write to the letter exactly when the write is faithful. */
  lemma WriteReads(db: Db, w: Write, f: string, text: Naming, p: string, refs: seq<string>)
    requires Possible(db, w)
    ensures Heard(Listed(db, f, text, p), EventOf(db, w), f, text, p, refs) == Listed(Written(db, w), f, text, p) <==>
        Faithful(db, w, f, text, p)
  {
    HeardIs(db, w, f, text, p, refs);
    ListedAfter(db, w, f, text, p);
    NotNamed(db, w, f, text, p);
    if !w.Delete? {
      JoinedReads(db, w, refs);
      OneEntry(Listed(db, f, text, p), w.id, ReadAs(db, w, f, text, p), Public(w.fields));
    }
    assert w.Insert? ==> Stored(db, w.id) == map[];
    hide EventOf, Heard, Listed, Written, Named, Stored, Public, Told;
  }

  /** An update that hands a document over and drops a field: the new parent's list still reads the field. */
  lemma DroppedFieldIsRead(text: Naming)
    ensures var db := map["id" := map["title" := Bool(true)]];
            var w := Update("id", map["owner" := Bool(true)], {"title", "owner"});
            Possible(db, w) && !Faithful(db, w, "owner", text, text(Bool(true)))
  {
    var old_, new_ := map["title" := Bool(true)], map["owner" := Bool(true)];
    assert Public(old_) == old_ && Public(new_) == new_;
    assert "title" in Public(old_).Keys;
    assert Parents(new_, "owner", text) == [text(Bool(true))];
  }

  /** An update that drops a field: the field does not arrive, and the list still reads it. */
  lemma RemovedFieldStays(text: Naming)
    ensures var db := map["id" := map["owner" := Bool(true), "title" := Null]];
            var w := Update("id", map["owner" := Bool(true)], {"title"});
            Possible(db, w) && !Faithful(db, w, "owner", text, text(Bool(true)))
  {
    var old_, new_ := map["owner" := Bool(true), "title" := Null], map["owner" := Bool(true)];
    assert Public(old_) == old_ && Public(new_) == new_;
    assert "title" in Public(old_).Keys;
    assert Parents(new_, "owner", text) == [text(Bool(true))];
  }

  /** A replacement under the same parent: the list keeps reading the old document. */
  lemma ReplacementIsMissed(text: Naming)
    ensures var db := map["id" := map["owner" := Bool(true), "title" := Null]];
            var w := Replace("id", map["owner" := Bool(true)]);
            Possible(db, w) && !Faithful(db, w, "owner", text, text(Bool(true)))
  {
    var old_, new_ := map["owner" := Bool(true), "title" := Null], map["owner" := Bool(true)];
    assert Public(old_) == old_ && Public(new_) == new_;
    assert "title" in Public(old_);
    assert Parents(new_, "owner", text) == [text(Bool(true))] && Parents(old_, "owner", text) == [text(Bool(true))];
  }

  // --- Any run ---

  function DbAfter(db: Db, ws: seq<Write>): Db {
    if ws == [] then db else Written(DbAfter(db, ws[..|ws| - 1]), ws[|ws| - 1])
  }

  /** A run the database allows, no parent in it with a slash in its id. */
  predicate Run(db: Db, ws: seq<Write>, paths: seq<Watched>, text: Naming) {
    ws != [] ==>
      var before := DbAfter(db, ws[..|ws| - 1]);
      && Run(db, ws[..|ws| - 1], paths, text)
      && Possible(before, ws[|ws| - 1])
      && PlainPaths(EventOf(before, ws[|ws| - 1]), paths, text)
  }

  /** A list that replays the messages of every write as they come. */
  function Followed(list: List, db: Db, ws: seq<Write>, paths: seq<Watched>, text: Naming, ref: string): List
    requires forall w <- paths :: w.levels != []
  {
    if ws == [] then list
    else
      var before := ws[..|ws| - 1];
      Replayed(Followed(list, db, before, paths, text, ref),
        Format(paths, EventOf(DbAfter(db, before), ws[|ws| - 1]), text), ref)
  }

  predicate AllFaithful(db: Db, ws: seq<Write>, f: string, text: Naming, p: string) {
    ws != [] ==>
      && AllFaithful(db, ws[..|ws| - 1], f, text, p)
      && Faithful(DbAfter(db, ws[..|ws| - 1]), ws[|ws| - 1], f, text, p)
  }

  /**
   * Over any run of inserts, updates, replacements and deletes, a list that starts as the documents
   * naming its parent and replays what it is told keeps being exactly those documents; and while every
   * write is faithful it reads them as they are.
   */
  lemma {:induction false} ListIsMaintained(routes: seq<Route>, table: string, w: Watched, c: string, f: string,
      d: string,
      db: Db, ws: seq<Write>, text: Naming, p: string)
    requires forall route <- routes :: Alternates(route.segments)
    requires w in PathsOf(routes, table) && w.levels == OneParent(c, f, d) && p != "-" && Plain(p)
    requires Run(db, ws, PathsOf(routes, table), text)
    ensures TidyPaths(PathsOf(routes, table))
    ensures var list := Followed(Listed(db, f, text, p), db, ws, PathsOf(routes, table), text, Path([c, p, d]));
            && list.Keys == Listed(DbAfter(db, ws), f, text, p).Keys
            && (AllFaithful(db, ws, f, text, p) ==> list == Listed(DbAfter(db, ws), f, text, p))
            && (forall id :: id in list <==> id in DbAfter(db, ws) && Belongs(DbAfter(db, ws)[id], f, text, p))
  {
    PathsAreTidy(routes, table);
    forall id
      ensures id in Listed(DbAfter(db, ws), f, text, p) <==>
          id in DbAfter(db, ws) && Belongs(DbAfter(db, ws)[id], f, text, p)
    {
      ListedAre(DbAfter(db, ws), f, text, p, id);
    }
    hide Belongs;
    if ws != [] {
      var before, write, paths := DbAfter(db, ws[..|ws| - 1]), ws[|ws| - 1], PathsOf(routes, table);
      ListIsMaintained(routes, table, w, c, f, d, db, ws[..|ws| - 1], text, p);
      var list := Followed(Listed(db, f, text, p), db, ws[..|ws| - 1], paths, text, Path([c, p, d]));
      EventIs(before, write, f, text, p);
      ListHears(paths, w, c, f, d, EventOf(before, write), text, p, list);
      WriteKeepsMembers(before, write, f, text, p, list, [c, p, d]);
      WriteReads(before, write, f, text, p, [c, p, d]);
      hide PathsOf, EventOf, Heard, Listed, Written, Faithful, Possible, PlainPaths, Format, Replayed, Whole, KindFor,
        Path, Alternates;
    }
  }

  // --- From a route to its lists ---

  /** A parameter is watched under the name it has without its colon; `:id` is the document's own key. */
  lemma ParamWatched(c: string, name: string, d: string)
    ensures Levels([c, ":" + name, d]) == OneParent(c, if name == "id" then "_id" else name, d)
  {
    var segments := [c, ":" + name, d];
    assert segments[2..] == [d] && (":" + name)[1..] == name;
  }

  ghost predicate WatchedFor(paths: seq<Watched>, route: Route) {
    exists w <- paths :: w.levels == Levels(route.segments) && w.ref == Path(Names(route.segments))
  }

  /** No other route of the table after the first `i` has the ref of `route`. */
  ghost predicate LastWithRef(routes: seq<Route>, table: string, i: nat, route: Route) {
    forall j :: i < j < |routes| && routes[j].collection == Some(table) && routes[j].realtime ==>
      Path(Names(routes[j].segments)) != Path(Names(route.segments))
  }

  lemma LastBefore(routes: seq<Route>, table: string, i: nat, route: Route)
    requires i < |routes| - 1 && LastWithRef(routes, table, i, route)
    ensures LastWithRef(routes[..|routes| - 1], table, i, route)
    ensures var last := routes[|routes| - 1];
            last.collection == Some(table) && last.realtime ==>
              Path(Names(last.segments)) != Path(Names(route.segments))
  {
    hide Path, Names;
  }

  lemma StaysWatched(routes: seq<Route>, table: string, route: Route)
    requires routes != [] && forall route <- routes :: Alternates(route.segments)
    requires WatchedFor(PathsOf(routes[..|routes| - 1], table), route)
    requires var last := routes[|routes| - 1];
             last.collection == Some(table) && last.realtime ==>
               Path(Names(last.segments)) != Path(Names(route.segments))
    ensures WatchedFor(PathsOf(routes, table), route)
  {
    OneRouteMore(routes, table);
    hide PathsOf, Levels, Names, Path, Alternates;
    var w :| w in PathsOf(routes[..|routes| - 1], table) && w.levels == Levels(route.segments)
        && w.ref == Path(Names(route.segments));
    assert w in PathsOf(routes, table);
  }

  /** The last route of a table with a ref is the one watched under it. */
  lemma {:induction false} RouteIsWatched(routes: seq<Route>, table: string, i: nat)
    requires forall route <- routes :: Alternates(route.segments)
    requires i < |routes| && routes[i].collection == Some(table) && routes[i].realtime
    requires LastWithRef(routes, table, i, routes[i])
    ensures WatchedFor(PathsOf(routes, table), routes[i])
    decreases |routes|
  {
    if i == |routes| - 1 {
      OneRouteMore(routes, table);
      RouteMetadata(routes[i]);
      hide PathsOf, Levels, Names, Path, Alternates;
      assert Metadata(routes[i]).value in PathsOf(routes, table);
    } else {
      var before := routes[..|routes| - 1];
      LastBefore(routes, table, i, routes[i]);
      hide *;
      assert before[i] == routes[i] && forall route <- before :: route in routes;
      RouteIsWatched(before, table, i);
      StaysWatched(routes, table, routes[i]);
    }
  }

  lemma RouteMetadata(route: Route)
    requires Alternates(route.segments) && route.realtime && route.collection.Some?
    ensures Metadata(route) == Some(Watched(Path(Names(route.segments)), Levels(route.segments)))
  {
    AlternatingIsTidy(route.segments);
  }

  lemma OneRouteMore(routes: seq<Route>, table: string)
    requires routes != [] && forall route <- routes :: Alternates(route.segments)
    ensures var last, before := routes[|routes| - 1], PathsOf(routes[..|routes| - 1], table);
            forall w :: w in PathsOf(routes, table) <==>
              if last.collection == Some(table) && last.realtime
              then w == Watched(Path(Names(last.segments)), Levels(last.segments))
                     || (w in before && w.ref != Path(Names(last.segments)))
              else w in before
  {
    var last, before := routes[|routes| - 1], PathsOf(routes[..|routes| - 1], table);
    PathsAreTidy(routes[..|routes| - 1], table);
    if last.collection == Some(table) && last.realtime {
      RouteMetadata(last);
      PutIs(before, Metadata(last).value);
    }
    hide Levels, Names, Path, Tidy, Collections, Put, Alternates;
  }

  /**
   * Of a route `c/:f/d`: over any run of writes of its table the list at `c/p/d` holds exactly the documents
   * that belong under `p` by the field `f`, and reads them as they are while every write is faithful.
   */
  lemma RouteIsMaintained(routes: seq<Route>, table: string, i: nat, c: string, f: string, d: string, db: Db,
      ws: seq<Write>, text: Naming, p: string)
    requires forall route <- routes :: Alternates(route.segments)
    requires i < |routes| && routes[i] == Route([c, ":" + f, d], Some(table), true) && f != "id"
    requires LastWithRef(routes, table, i, routes[i])
    requires p != "-" && Plain(p) && Run(db, ws, PathsOf(routes, table), text)
    ensures TidyPaths(PathsOf(routes, table))
    ensures var list := Followed(Listed(db, f, text, p), db, ws, PathsOf(routes, table), text, Path([c, p, d]));
            && (forall id :: id in list <==> id in DbAfter(db, ws) && Belongs(DbAfter(db, ws)[id], f, text, p))
            && (AllFaithful(db, ws, f, text, p) ==> list == Listed(DbAfter(db, ws), f, text, p))
  {
    RouteIsWatched(routes, table, i);
    ParamWatched(c, f, d);
    hide PathsOf, Levels, Names, Path, Belongs, Listed, Run, Followed, DbAfter, AllFaithful, OneParent;
    var w :| w in PathsOf(routes, table) && w.levels == Levels(routes[i].segments)
        && w.ref == Path(Names(routes[i].segments));
    ListIsMaintained(routes, table, w, c, f, d, db, ws, text, p);
  }
}
