/**
 * JSON values and documents, and the order MongoDB (and so every local page) gives them:
 * packages/client/src/helpers/sortDocs.ts.
 */
module Documents {
  import opened Wrappers
  import opened Utf16

  /** A JSON value. Numbers are finite; a missing field is `None` where a field is looked up. */
  datatype Value =
    | Null
    | Num(n: real)
    | Str(s: Text)
    | Bool(b: bool)
    | Arr(items: seq<Value>)
    | Obj(entries: seq<Property>)

  /** One property of an object, in insertion order. */
  datatype Property = Property(key: Text, value: Value)

  type Id = string

  /** A document's own fields, where their order does not matter. */
  type Fields = map<string, Value>

  function FieldOf(fields: Fields, name: string): Option<Value> {
    if name in fields then Some(fields[name]) else None
  }

  lemma SameFields(a: Fields, b: Fields)
    requires forall name :: FieldOf(a, name) == FieldOf(b, name)
    ensures a == b
  {
    forall name
      ensures name in a <==> name in b
      ensures name in a && name in b ==> a[name] == b[name]
    {
      assert FieldOf(a, name) == FieldOf(b, name);
    }
  }

  lemma NewName(names: set<string>) returns (name: string)
    ensures name !in names
  {
    var left := names;
    var longest: nat := 0;
    while left != {}
      invariant left <= names && forall n: string :: n in names ==> n in left || |n| <= longest
      decreases |left|
    {
      var n :| n in left;
      left := left - {n};
      longest := if |n| > longest then |n| else longest;
    }
    name := seq(longest + 1, _ => 'x');
  }

  // Type ranks of the BSON order; 0 is an empty array under a sort field.
  const NULL_RANK := 1
  const NUMBER_RANK := 2
  const STRING_RANK := 3
  const OBJECT_RANK := 4
  const ARRAY_RANK := 5
  const UUID_RANK := 6
  const OBJECT_ID_RANK := 7
  const BOOLEAN_RANK := 8

  function RankOf(v: Value): int {
    match v
    case Null => NULL_RANK
    case Num(_) => NUMBER_RANK
    case Str(_) => STRING_RANK
    case Bool(_) => BOOLEAN_RANK
    case Arr(_) => ARRAY_RANK
    case Obj(_) => OBJECT_RANK
  }

  function RealOrder(x: real, y: real): int {
    if x < y then -1 else if x > y then 1 else 0
  }

  // --- The order of two values, recursively ---

  function ValueOrder(a: Value, b: Value): int
    decreases a, 0
  {
    if RankOf(a) != RankOf(b) then Sign(RankOf(a) - RankOf(b))
    else match a
      case Null => 0
      case Num(n) => RealOrder(n, b.n)
      case Str(s) => StringOrder(s, b.s)
      case Bool(x) => if x == b.b then 0 else if x then 1 else -1
      case Arr(items) => ItemsOrder(items, b.items)
      case Obj(entries) => EntriesOrder(entries, b.entries)
  }

  function ItemsOrder(x: seq<Value>, y: seq<Value>): int
    decreases x, 0
  {
    if x == [] || y == [] then Sign(|x| - |y|)
    else
      var d := ValueOrder(x[0], y[0]);
      if d != 0 then d else ItemsOrder(x[1..], y[1..])
  }

  /** Two properties: the value's type, then the field name, then the value. */
  function EntryOrder(x: Property, y: Property): int
    decreases x, 1
  {
    if RankOf(x.value) != RankOf(y.value) then Sign(RankOf(x.value) - RankOf(y.value))
    else if StringOrder(x.key, y.key) != 0 then StringOrder(x.key, y.key)
    else ValueOrder(x.value, y.value)
  }

  function EntriesOrder(x: seq<Property>, y: seq<Property>): int
    decreases x, 0
  {
    if x == [] || y == [] then Sign(|x| - |y|)
    else
      var d := EntryOrder(x[0], y[0]);
      if d != 0 then d else EntriesOrder(x[1..], y[1..])
  }

  /** The comparison as the code runs it: one loop per array or object. */
  method CompareValues(a: Value, b: Value) returns (order: int)
    ensures order == ValueOrder(a, b)
    decreases a
  {
    if RankOf(a) != RankOf(b) {
      return if RankOf(a) < RankOf(b) then -1 else 1;
    }
    match a {
      case Null =>
        return 0;
      case Num(n) =>
        return if n == b.n then 0 else if n < b.n then -1 else 1;
      case Str(s) =>
        order := CompareStrings(s, b.s);
      case Bool(x) =>
        return if x == b.b then 0 else if x then 1 else -1;
      case Arr(x) =>
        var y := b.items;
        var i := 0;
        while i < |x| && i < |y|
          invariant i <= |x| && i <= |y|
          invariant ItemsOrder(x, y) == ItemsOrder(x[i..], y[i..])
        {
          var d := CompareValues(x[i], y[i]);
          if d != 0 {
            return d;
          }
          assert x[i..][1..] == x[i + 1..] && y[i..][1..] == y[i + 1..];
          i := i + 1;
        }
        return if |x| == |y| then 0 else if |x| < |y| then -1 else 1;
      case Obj(x) =>
        var y := b.entries;
        var i := 0;
        while i < |x| && i < |y|
          invariant i <= |x| && i <= |y|
          invariant EntriesOrder(x, y) == EntriesOrder(x[i..], y[i..])
        {
          var d := Sign(RankOf(x[i].value) - RankOf(y[i].value));
          if d == 0 {
            d := CompareStrings(x[i].key, y[i].key);
          }
          if d == 0 {
            d := CompareValues(x[i].value, y[i].value);
          }
          assert d == EntryOrder(x[i], y[i]);
          if d != 0 {
            return d;
          }
          assert x[i..][1..] == x[i + 1..] && y[i..][1..] == y[i + 1..];
          i := i + 1;
        }
        return if |x| == |y| then 0 else if |x| < |y| then -1 else 1;
    }
  }

  // --- It is a total order: zero only on equal values, antisymmetric, transitive ---

  lemma {:induction false} ValueOrderTotal(a: Value, b: Value)
    ensures ValueOrder(a, b) == 0 <==> a == b
    ensures ValueOrder(a, b) == -ValueOrder(b, a)
    decreases a, 0
  {
    if RankOf(a) == RankOf(b) {
      match a {
        case Str(s) => StringOrderTotal(s, b.s);
        case Arr(items) => ItemsOrderTotal(items, b.items);
        case Obj(entries) => EntriesOrderTotal(entries, b.entries);
        case _ =>
      }
    }
  }

  lemma {:induction false} ItemsOrderTotal(x: seq<Value>, y: seq<Value>)
    ensures ItemsOrder(x, y) == 0 <==> x == y
    ensures ItemsOrder(x, y) == -ItemsOrder(y, x)
    decreases x, 0
  {
    if x != [] && y != [] {
      ValueOrderTotal(x[0], y[0]);
      ItemsOrderTotal(x[1..], y[1..]);
      assert x == [x[0]] + x[1..] && y == [y[0]] + y[1..];
    }
  }

  lemma {:induction false} EntryOrderTotal(x: Property, y: Property)
    ensures EntryOrder(x, y) == 0 <==> x == y
    ensures EntryOrder(x, y) == -EntryOrder(y, x)
    decreases x, 1
  {
    StringOrderTotal(x.key, y.key);
    ValueOrderTotal(x.value, y.value);
  }

  lemma {:induction false} EntriesOrderTotal(x: seq<Property>, y: seq<Property>)
    ensures EntriesOrder(x, y) == 0 <==> x == y
    ensures EntriesOrder(x, y) == -EntriesOrder(y, x)
    decreases x, 0
  {
    if x != [] && y != [] {
      EntryOrderTotal(x[0], y[0]);
      EntriesOrderTotal(x[1..], y[1..]);
      assert x == [x[0]] + x[1..] && y == [y[0]] + y[1..];
    }
  }

  lemma {:induction false} ValueOrderTransitive(a: Value, b: Value, c: Value)
    requires ValueOrder(a, b) < 0 && ValueOrder(b, c) < 0
    ensures ValueOrder(a, c) < 0
    decreases a, 0
  {
    if RankOf(a) == RankOf(b) == RankOf(c) {
      match a {
        case Str(s) => StringOrderTransitive(s, b.s, c.s);
        case Arr(items) => ItemsOrderTransitive(items, b.items, c.items);
        case Obj(entries) => EntriesOrderTransitive(entries, b.entries, c.entries);
        case _ =>
      }
    }
  }

  lemma {:induction false} ItemsOrderTransitive(x: seq<Value>, y: seq<Value>, z: seq<Value>)
    requires ItemsOrder(x, y) < 0 && ItemsOrder(y, z) < 0
    ensures ItemsOrder(x, z) < 0
    decreases x, 0
  {
    if x != [] && y != [] && z != [] {
      ValueOrderTotal(x[0], y[0]);
      ValueOrderTotal(y[0], z[0]);
      if x[0] == y[0] && y[0] == z[0] {
        ItemsOrderTransitive(x[1..], y[1..], z[1..]);
      } else if x[0] != y[0] && y[0] != z[0] {
        ValueOrderTransitive(x[0], y[0], z[0]);
      }
    }
  }

  lemma {:induction false} EntryOrderTransitive(x: Property, y: Property, z: Property)
    requires EntryOrder(x, y) < 0 && EntryOrder(y, z) < 0
    ensures EntryOrder(x, z) < 0
    decreases x, 1
  {
    StringOrderTotal(x.key, y.key);
    StringOrderTotal(y.key, z.key);
    if RankOf(x.value) == RankOf(y.value) == RankOf(z.value) {
      if x.key == y.key == z.key {
        ValueOrderTransitive(x.value, y.value, z.value);
      } else if x.key != y.key && y.key != z.key {
        StringOrderTransitive(x.key, y.key, z.key);
      }
    }
  }

  lemma {:induction false} EntriesOrderTransitive(x: seq<Property>, y: seq<Property>, z: seq<Property>)
    requires EntriesOrder(x, y) < 0 && EntriesOrder(y, z) < 0
    ensures EntriesOrder(x, z) < 0
    decreases x, 0
  {
    if x != [] && y != [] && z != [] {
      EntryOrderTotal(x[0], y[0]);
      EntryOrderTotal(y[0], z[0]);
      if x[0] == y[0] && y[0] == z[0] {
        EntriesOrderTransitive(x[1..], y[1..], z[1..]);
      } else if x[0] != y[0] && y[0] != z[0] {
        EntryOrderTransitive(x[0], y[0], z[0]);
      }
    }
  }

  // --- What the order is ---

  /** BSON's order of types. */
  lemma TypesInOrder(n: real, s: Text, entries: seq<Property>, items: seq<Value>, b: bool)
    ensures ValueOrder(Null, Num(n)) < 0 && ValueOrder(Num(n), Str(s)) < 0 && ValueOrder(Str(s), Obj(entries)) < 0
    ensures ValueOrder(Obj(entries), Arr(items)) < 0 && ValueOrder(Arr(items), Bool(b)) < 0
  {
  }

  lemma ScalarsInOrder(x: real, y: real, a: Text, b: Text)
    ensures ValueOrder(Num(x), Num(y)) < 0 <==> x < y
    ensures ValueOrder(Str(a), Str(b)) == StringOrder(a, b)
    ensures ValueOrder(Bool(false), Bool(true)) < 0
  {
  }

  /** The first element that differs decides; an array comes before what it is the beginning of. */
  lemma {:induction false} ArraysInOrder(same: seq<Value>, x: Value, xs: seq<Value>, y: Value, ys: seq<Value>)
    ensures ValueOrder(x, y) < 0 ==> ValueOrder(Arr(same + [x] + xs), Arr(same + [y] + ys)) < 0
    ensures ValueOrder(Arr(same), Arr(same + [x] + xs)) < 0
    decreases |same|
  {
    if same != [] {
      ArraysInOrder(same[1..], x, xs, y, ys);
      ValueOrderTotal(same[0], same[0]);
      assert (same + [x] + xs)[1..] == same[1..] + [x] + xs;
      assert (same + [y] + ys)[1..] == same[1..] + [y] + ys;
    }
  }

  predicate SameType(a: Value, b: Value) {
    match a
    case Null => b.Null?
    case Num(_) => b.Num?
    case Str(_) => b.Str?
    case Bool(_) => b.Bool?
    case Arr(_) => b.Arr?
    case Obj(_) => b.Obj?
  }

  /** Of two properties the type of the value decides, then the name, then the value. */
  predicate ComesFirst(x: Property, y: Property) {
    if SameType(x.value, y.value) && x.key != y.key then StringOrder(x.key, y.key) < 0
    else ValueOrder(x.value, y.value) < 0
  }

  lemma {:induction false} ObjectsInOrder(same: seq<Property>, x: Property, xs: seq<Property>, y: Property,
      ys: seq<Property>)
    ensures ComesFirst(x, y) ==> ValueOrder(Obj(same + [x] + xs), Obj(same + [y] + ys)) < 0
    ensures ValueOrder(Obj(same), Obj(same + [x] + xs)) < 0
    decreases |same|
  {
    if same != [] {
      ObjectsInOrder(same[1..], x, xs, y, ys);
      EntryOrderTotal(same[0], same[0]);
      assert (same + [x] + xs)[1..] == same[1..] + [x] + xs;
      assert (same + [y] + ys)[1..] == same[1..] + [y] + ys;
    } else {
      StringOrderTotal(x.key, y.key);
      assert ComesFirst(x, y) ==> EntryOrder(x, y) < 0;
    }
  }

  // --- Documents and paths ---

  type Path = seq<Text>

  /** `'a.b'.split('.')`: never empty. */
  type FieldPath = p: Path | p != [] witness [ID]

  datatype Doc = Doc(id: Text, fields: seq<Property>)

  const ID: Text := [0x69, 0x64]

  function Lookup(entries: seq<Property>, key: Text): Option<Value> {
    if entries == [] then None
    else if entries[0].key == key then Some(entries[0].value)
    else Lookup(entries[1..], key)
  }

  const LENGTH: Text := [0x6C, 0x65, 0x6E, 0x67, 0x74, 0x68]

  predicate IsDigits(key: Text) {
    key != [] && forall i :: 0 <= i < |key| ==> 0x30 <= key[i] <= 0x39
  }

  function DigitsValue(key: Text): nat
    requires key == [] || IsDigits(key)
  {
    if key == [] then 0 else 10 * DigitsValue(key[..|key| - 1]) + (key[|key| - 1] - 0x30)
  }

  /** The position a key names in an array: decimal, without leading zeros. */
  function ElementIndex(key: Text): Option<nat> {
    if IsDigits(key) && (key[0] != 0x30 || |key| == 1) then Some(DigitsValue(key)) else None
  }

  /** A property of an object or an array; nothing else has any. */
  function Child(v: Value, key: Text): Option<Value> {
    match v
    case Obj(entries) => Lookup(entries, key)
    case Arr(items) =>
      if key == LENGTH then Some(Num(|items| as real))
      else if ElementIndex(key).Some? && ElementIndex(key).value < |items| then Some(items[ElementIndex(key).value])
      else None
    case _ => None
  }

  /** A dot path into a value. */
  function GetIn(v: Value, path: Path): Option<Value>
    decreases |path|
  {
    if path == [] then Some(v)
    else match Child(v, path[0])
      case None => None
      case Some(inner) => GetIn(inner, path[1..])
  }

  function Get(doc: Doc, path: Path): Option<Value> {
    if path != [] && path[0] == ID then GetIn(Str(doc.id), path[1..])
    else GetIn(Obj(doc.fields), path)
  }

  /** A path goes on where its beginning leads. */
  lemma {:induction false} GetThrough(v: Value, path: Path, more: Path)
    ensures GetIn(v, path + more) == if GetIn(v, path).Some? then GetIn(GetIn(v, path).value, more) else None
    decreases |path|
  {
    if path == [] {
      assert path + more == more;
    } else if Child(v, path[0]).Some? {
      GetThrough(Child(v, path[0]).value, path[1..], more);
      assert (path + more)[1..] == path[1..] + more;
    }
  }

  /** An object's property by its name, an array's element by its decimal index, and nothing of anything else. */
  lemma GetOne(entries: seq<Property>, i: nat, items: seq<Value>, j: nat, key: Text)
    ensures i < |entries| && (forall k :: 0 <= k < i ==> entries[k].key != entries[i].key) ==>
              GetIn(Obj(entries), [entries[i].key]) == Some(entries[i].value)
    ensures (forall e <- entries :: e.key != key) ==> GetIn(Obj(entries), [key]) == None
    ensures j < |items| ==> GetIn(Arr(items), [Decimal(j)]) == Some(items[j])
    ensures GetIn(Arr(items), [LENGTH]) == Some(Num(|items| as real))
    ensures forall v: Value :: !v.Obj? && !v.Arr? ==> GetIn(v, [key]) == None
  {
    if i < |entries| && forall k :: 0 <= k < i ==> entries[k].key != entries[i].key { LookupAt(entries, i); }
    if forall e <- entries :: e.key != key { LookupNone(entries, key); }
    DecimalRead(j);
    assert LENGTH[0] == 0x6C && forall k :: 0 <= k < |Decimal(j)| ==> Decimal(j)[k] <= 0x39;
    assert forall v: Value, k: Text :: [k][1..] == [] && GetIn(v, []) == Some(v);
  }

  lemma {:induction false} LookupAt(entries: seq<Property>, i: nat)
    requires i < |entries| && forall k :: 0 <= k < i ==> entries[k].key != entries[i].key
    ensures Lookup(entries, entries[i].key) == Some(entries[i].value)
    decreases |entries|
  {
    if i > 0 {
      assert entries[0].key != entries[i].key && entries[1..][i - 1] == entries[i];
      LookupAt(entries[1..], i - 1);
    }
  }

  lemma {:induction false} LookupNone(entries: seq<Property>, key: Text)
    requires forall e <- entries :: e.key != key
    ensures Lookup(entries, key) == None
    decreases |entries|
  {
    if entries != [] {
      LookupNone(entries[1..], key);
    }
  }

  /** A number as JavaScript writes it. */
  function Decimal(n: nat): Text {
    if n < 10 then [(0x30 + n) as Unit] else Decimal(n / 10) + [(0x30 + n % 10) as Unit]
  }

  lemma {:induction false} DecimalRead(n: nat)
    ensures IsDigits(Decimal(n)) && DigitsValue(Decimal(n)) == n && (n > 0 ==> Decimal(n)[0] != 0x30)
    ensures ElementIndex(Decimal(n)) == Some(n)
    decreases n
  {
    if n >= 10 {
      DecimalRead(n / 10);
      assert Decimal(n)[..|Decimal(n)| - 1] == Decimal(n / 10);
    } else {
      assert Decimal(n)[..0] == [];
    }
  }

  // --- What a field sorts by ---

  /** A sort field's value after arrays are reduced to one element; an empty array sorts first. */
  datatype SortValue = EmptyArray | Single(value: Value)

  function Extreme(best: Value, rest: seq<Value>, ascending: bool): Value
    decreases |rest|
  {
    if rest == [] then best
    else
      var d := ValueOrder(rest[0], best);
      Extreme(if (if ascending then d < 0 else d > 0) then rest[0] else best, rest[1..], ascending)
  }

  function SortValueOf(value: Option<Value>, ascending: bool): SortValue {
    match value
    case None => Single(Null)
    case Some(Arr(items)) => if items == [] then EmptyArray else Single(Extreme(items[0], items[1..], ascending))
    case Some(v) => Single(v)
  }

  function SortValueOrder(a: SortValue, b: SortValue): int {
    if a.EmptyArray? || b.EmptyArray? then
      if a == b then 0 else if a.EmptyArray? then -1 else 1
    else ValueOrder(a.value, b.value)
  }

  /** The reduction picks the smallest element ascending, the largest descending. */
  lemma {:induction false} ExtremeIsExtreme(best: Value, rest: seq<Value>, ascending: bool)
    ensures Extreme(best, rest, ascending) in [best] + rest
    ensures forall v <- [best] + rest ::
              var d := ValueOrder(Extreme(best, rest, ascending), v);
              if ascending then d <= 0 else d >= 0
    decreases |rest|
  {
    var e := Extreme(best, rest, ascending);
    ValueOrderTotal(best, best);
    if rest != [] {
      var d := ValueOrder(rest[0], best);
      var next := if (if ascending then d < 0 else d > 0) then rest[0] else best;
      var other := if next == best then rest[0] else best;
      ExtremeIsExtreme(next, rest[1..], ascending);
      ValueOrderTotal(rest[0], best);
      ValueOrderTotal(e, next);
      if ascending {
        ValueOrderWeak(e, next, other);
      } else {
        ValueOrderTotal(next, other);
        ValueOrderWeak(other, next, e);
        ValueOrderTotal(other, e);
      }
      forall v | v in [best] + rest
        ensures var d := ValueOrder(e, v); if ascending then d <= 0 else d >= 0
      {
        assert v == next || v == other || v in rest[1..];
      }
    }
  }

  lemma ValueOrderWeak(a: Value, b: Value, c: Value)
    requires ValueOrder(a, b) <= 0 && ValueOrder(b, c) <= 0
    ensures ValueOrder(a, c) <= 0
  {
    ValueOrderTotal(a, b);
    ValueOrderTotal(b, c);
    if a != b && b != c {
      ValueOrderTransitive(a, b, c);
    }
  }

  /** An array under a sort field counts as one of its elements, the extreme one; an empty array comes first. */
  lemma FieldSorts(items: seq<Value>, other: SortValue, ascending: bool)
    ensures SortValueOf(None, ascending) == SortValueOf(Some(Null), ascending) == Single(Null)
    ensures forall v: Value :: !v.Arr? ==> SortValueOf(Some(v), ascending) == Single(v)
    ensures items != [] ==> exists e <- items ::
              && SortValueOf(Some(Arr(items)), ascending) == Single(e)
              && forall v <- items :: if ascending then ValueOrder(e, v) <= 0 else ValueOrder(e, v) >= 0
    ensures other.Single? ==> SortValueOrder(SortValueOf(Some(Arr([])), ascending), other) < 0
    ensures forall a, b :: SortValueOrder(Single(a), Single(b)) == ValueOrder(a, b)
  {
    if items != [] {
      ExtremeIsExtreme(items[0], items[1..], ascending);
      assert [items[0]] + items[1..] == items;
    }
  }

  // --- Ids ---

  predicate IsHexUnit(u: int) {
    0x30 <= u <= 0x39 || 0x41 <= u <= 0x46 || 0x61 <= u <= 0x66
  }

  predicate IsObjectId(id: Text) {
    |id| == 24 && forall i :: 0 <= i < 24 ==> IsHexUnit(id[i])
  }

  /** 8-4-4-4-12 hexadecimal digits. */
  predicate IsUuid(id: Text) {
    |id| == 36 && forall i :: 0 <= i < 36 ==>
      if i in {8, 13, 18, 23} then id[i] == 0x2D else IsHexUnit(id[i])
  }

  function LowerUnit(u: Unit): Unit {
    if 0x41 <= u <= 0x5A then u + 0x20 else u
  }

  function Lower(s: Text): Text {
    seq(|s|, i requires 0 <= i < |s| => LowerUnit(s[i]))
  }

  /** Where an id sorts on MongoDB, and the text it sorts by within its kind. */
  function IdRank(id: Text): (int, Text) {
    if IsUuid(id) then (UUID_RANK, Lower(id))
    else if IsObjectId(id) then (OBJECT_ID_RANK, Lower(id))
    else (STRING_RANK, id)
  }

  /** Hexadecimal ids are written in lower case, so no two ids name one server id. */
  predicate CanonicalId(id: Text) {
    IdRank(id).1 == id
  }

  function IdOrder(a: Text, b: Text): int {
    var (ra, va) := IdRank(a);
    var (rb, vb) := IdRank(b);
    if ra != rb then Sign(ra - rb) else StringOrder(va, vb)
  }

  lemma IdOrderTotal(a: Text, b: Text)
    ensures IdOrder(a, b) == -IdOrder(b, a)
    ensures IdOrder(a, b) == 0 <==> IdRank(a) == IdRank(b)
    ensures CanonicalId(a) && CanonicalId(b) ==> (IdOrder(a, b) == 0 <==> a == b)
  {
    StringOrderTotal(IdRank(a).1, IdRank(b).1);
  }

  lemma IdOrderTransitive(a: Text, b: Text, c: Text)
    requires IdOrder(a, b) < 0 && IdOrder(b, c) < 0
    ensures IdOrder(a, c) < 0
  {
    if IdRank(a).0 == IdRank(b).0 == IdRank(c).0 {
      StringOrderTransitive(IdRank(a).1, IdRank(b).1, IdRank(c).1);
    }
  }

  function HexValue(u: int): int {
    if 0x30 <= u <= 0x39 then u - 0x30 else if 0x41 <= u <= 0x46 then u - 0x37 else if 0x61 <= u <= 0x66 then u - 0x57
    else -1
  }

  predicate IsHex(s: Text, n: nat) {
    |s| == n && forall u <- s :: HexValue(u) >= 0
  }

  lemma HexUnits(s: Text, n: nat)
    ensures IsHex(s, n) <==> |s| == n && forall i :: 0 <= i < |s| ==> IsHexUnit(s[i])
  {
    assert forall u: Unit :: IsHexUnit(u) <==> HexValue(u) >= 0;
    assert forall i :: 0 <= i < |s| ==> s[i] in s;
    assert forall u <- s :: exists i :: 0 <= i < |s| && s[i] == u;
    hide HexValue, IsHexUnit;
  }

  /** Plain ids, then UUIDs, then ObjectIds of 24 hexadecimal digits. */
  lemma IdKindsInOrder(a: Text, b: Text)
    ensures IsUuid(b) && !IsUuid(a) && !IsObjectId(a) ==> IdOrder(a, b) < 0
    ensures IsUuid(a) && IsObjectId(b) ==> IdOrder(a, b) < 0
    ensures !IsUuid(a) && !IsObjectId(a) && !IsUuid(b) && !IsObjectId(b) ==> IdOrder(a, b) == StringOrder(a, b)
    ensures IsObjectId(a) <==> IsHex(a, 24)
  {
    HexUnits(a, 24);
  }

  function Dashed(v: Text, w: Text, x: Text, y: Text, z: Text): Text {
    v + [0x2D] + w + [0x2D] + x + [0x2D] + y + [0x2D] + z
  }

  predicate UuidParts(a: Text, v: Text, w: Text, x: Text, y: Text, z: Text) {
    IsHex(v, 8) && IsHex(w, 4) && IsHex(x, 4) && IsHex(y, 4) && IsHex(z, 12) && a == Dashed(v, w, x, y, z)
  }

  /** A UUID is 8-4-4-4-12 hexadecimal digits. */
  lemma UuidIs(a: Text)
    ensures IsUuid(a) <==> exists v, w, x, y, z :: UuidParts(a, v, w, x, y, z)
  {
    if IsUuid(a) {
      var v, w, x, y, z := a[..8], a[9..13], a[14..18], a[19..23], a[24..];
      HexUnits(v, 8);
      HexUnits(w, 4);
      HexUnits(x, 4);
      HexUnits(y, 4);
      HexUnits(z, 12);
      assert a == Dashed(v, w, x, y, z);
      assert UuidParts(a, v, w, x, y, z);
    }
    if v, w, x, y, z :| UuidParts(a, v, w, x, y, z) {
      HexUnits(v, 8);
      HexUnits(w, 4);
      HexUnits(x, 4);
      HexUnits(y, 4);
      HexUnits(z, 12);
      hide IsHex;
      assert a[..8] == v && a[9..13] == w && a[14..18] == x && a[19..23] == y && a[24..] == z;
    }
  }

  lemma LowerDigits(u: Unit, v: Unit)
    ensures HexValue(u) == HexValue(v) >= 0 ==> LowerUnit(u) == LowerUnit(v)
    ensures 0 <= HexValue(u) < HexValue(v) ==> LowerUnit(u) < LowerUnit(v)
    ensures HexValue(u) >= 0 || u == 0x2D ==> LowerUnit(u) < 0xD800
  {
  }

  /** A digit or, in a UUID, a dash at a place where any other has one. */
  lemma HexAt(a: Text, b: Text, i: nat)
    requires (IsUuid(a) && IsUuid(b)) || (IsObjectId(a) && IsObjectId(b))
    requires i < |a|
    ensures |a| == |b| && ((HexValue(a[i]) >= 0 && HexValue(b[i]) >= 0) || a[i] == b[i] == 0x2D)
  {
  }

  /** Within a kind hexadecimal ids are in the order of their bytes, in either case. */
  lemma HexIdsInOrder(a: Text, b: Text, i: nat)
    requires (IsUuid(a) && IsUuid(b)) || (IsObjectId(a) && IsObjectId(b))
    requires i <= |a| == |b| && forall j :: 0 <= j < i ==> HexValue(a[j]) == HexValue(b[j])
    ensures i == |a| ==> IdOrder(a, b) == 0
    ensures i < |a| && HexValue(a[i]) < HexValue(b[i]) ==> IdOrder(a, b) < 0
  {
    var x, y := Lower(a), Lower(b);
    forall j | 0 <= j < |a|
      ensures x[j] < 0xD800 && y[j] < 0xD800
      ensures HexValue(a[j]) == HexValue(b[j]) ==> x[j] == y[j]
      ensures HexValue(a[j]) < HexValue(b[j]) ==> x[j] < y[j]
    {
      HexAt(a, b, j);
      LowerDigits(a[j], b[j]);
      LowerDigits(b[j], a[j]);
    }
    assert IdOrder(a, b) == SeqOrder(CodePoints(x), CodePoints(y)) by { SameKind(a, b); }
    hide *;
    LowOrder(x, y, i);
  }

  lemma SameKind(a: Text, b: Text)
    requires (IsUuid(a) && IsUuid(b)) || (IsObjectId(a) && IsObjectId(b))
    ensures IdOrder(a, b) == SeqOrder(CodePoints(Lower(a)), CodePoints(Lower(b)))
  {
    hide CodePoints, SeqOrder, Lower;
  }

  lemma LowOrder(x: Text, y: Text, i: nat)
    requires |x| == |y| && i <= |x| && forall j :: 0 <= j < |x| ==> x[j] < 0xD800 && y[j] < 0xD800
    requires forall j :: 0 <= j < i ==> x[j] == y[j]
    ensures i == |x| ==> SeqOrder(CodePoints(x), CodePoints(y)) == 0
    ensures i < |x| && x[i] < y[i] ==> SeqOrder(CodePoints(x), CodePoints(y)) < 0
  {
    hide *;
    PlainPoints(x);
    PlainPoints(y);
    if i == |x| {
      assert x == y;
      SeqOrderZero(x, y);
    } else {
      DifferAt(x, y, i);
    }
  }

  lemma DifferAt(x: seq<int>, y: seq<int>, i: nat)
    requires |x| == |y| && i < |x| && forall j :: 0 <= j < i ==> x[j] == y[j]
    ensures x[i] < y[i] ==> SeqOrder(x, y) < 0
  {
    hide *;
    var same := x[..i];
    assert same == y[..i];
    assert x == same + [x[i]] + x[i + 1..];
    assert y == same + [y[i]] + y[i + 1..];
    FirstDifference(same, x[i], x[i + 1..], y[i], y[i + 1..]);
  }

  /** A text without surrogates is its own code points. */
  lemma {:induction false} PlainPoints(s: Text)
    requires forall u <- s :: u < 0xD800
    ensures CodePoints(s) == s
    decreases |s|
  {
    if s != [] {
      assert s[0] in s && forall u <- s[1..] :: u in s;
      PlainPoints(s[1..]);
      assert s == [s[0]] + s[1..];
    }
  }

  // --- The order of documents ---

  datatype Sorter = Sorter(path: FieldPath, ascending: bool)

  function Signed(order: int, ascending: bool): int {
    if ascending then order else -order
  }

  function FieldOrder(sorter: Sorter, a: Doc, b: Doc): int {
    if sorter.path == [ID] then IdOrder(a.id, b.id)
    else SortValueOrder(SortValueOf(Get(a, sorter.path), sorter.ascending),
        SortValueOf(Get(b, sorter.path), sorter.ascending))
  }

  /** The sorters and then the id, in the last sorter's direction (newest first without one). */
  function WithTie(sorters: seq<Sorter>): seq<Sorter> {
    sorters + [Sorter([ID], sorters != [] && sorters[|sorters| - 1].ascending)]
  }

  function OrderBy(sorters: seq<Sorter>, a: Doc, b: Doc): int
    decreases |sorters|
  {
    if sorters == [] then 0
    else
      var order := FieldOrder(sorters[0], a, b);
      if order != 0 then Signed(order, sorters[0].ascending) else OrderBy(sorters[1..], a, b)
  }

  function DocOrder(sorters: seq<Sorter>, a: Doc, b: Doc): int {
    OrderBy(WithTie(sorters), a, b)
  }

  method CompareDocs(sorters: seq<Sorter>, a: Doc, b: Doc) returns (order: int)
    ensures order == DocOrder(sorters, a, b)
  {
    var tie := WithTie(sorters);
    for i := 0 to |tie|
      invariant DocOrder(sorters, a, b) == OrderBy(tie[i..], a, b)
    {
      var Sorter(path, ascending) := tie[i];
      if path == [ID] {
        order := IdOrder(a.id, b.id);
      } else {
        var va, vb := SortValueOf(Get(a, path), ascending), SortValueOf(Get(b, path), ascending);
        if va.EmptyArray? || vb.EmptyArray? {
          order := if va == vb then 0 else if va.EmptyArray? then -1 else 1;
        } else {
          order := CompareValues(va.value, vb.value);
        }
      }
      if order != 0 {
        return if ascending then order else -order;
      }
      assert tie[i..][1..] == tie[i + 1..];
    }
    return 0;
  }

  lemma FieldOrderTotal(sorter: Sorter, a: Doc, b: Doc)
    ensures FieldOrder(sorter, a, b) == -FieldOrder(sorter, b, a)
  {
    IdOrderTotal(a.id, b.id);
    var va, vb := SortValueOf(Get(a, sorter.path), sorter.ascending),
        SortValueOf(Get(b, sorter.path), sorter.ascending);
    if va.Single? && vb.Single? {
      ValueOrderTotal(va.value, vb.value);
    }
  }

  lemma FieldOrderTransitive(sorter: Sorter, a: Doc, b: Doc, c: Doc)
    ensures FieldOrder(sorter, a, b) < 0 && FieldOrder(sorter, b, c) <= 0 ==> FieldOrder(sorter, a, c) < 0
    ensures FieldOrder(sorter, a, b) <= 0 && FieldOrder(sorter, b, c) < 0 ==> FieldOrder(sorter, a, c) < 0
    ensures FieldOrder(sorter, a, b) == 0 && FieldOrder(sorter, b, c) == 0 ==> FieldOrder(sorter, a, c) == 0
  {
    if sorter.path == [ID] {
      IdOrderTotal(a.id, b.id);
      IdOrderTotal(b.id, c.id);
      IdOrderTotal(a.id, c.id);
      if IdOrder(a.id, b.id) < 0 && IdOrder(b.id, c.id) < 0 {
        IdOrderTransitive(a.id, b.id, c.id);
      }
    } else {
      var va, vb, vc := SortValueOf(Get(a, sorter.path), sorter.ascending),
          SortValueOf(Get(b, sorter.path), sorter.ascending), SortValueOf(Get(c, sorter.path), sorter.ascending);
      if va.Single? && vb.Single? && vc.Single? {
        ValueOrderTotal(va.value, vb.value);
        ValueOrderTotal(vb.value, vc.value);
        ValueOrderTotal(va.value, vc.value);
        if ValueOrder(va.value, vb.value) < 0 && ValueOrder(vb.value, vc.value) < 0 {
          ValueOrderTransitive(va.value, vb.value, vc.value);
        }
      }
    }
  }

  lemma {:induction false} OrderByFlips(sorters: seq<Sorter>, a: Doc, b: Doc)
    ensures OrderBy(sorters, a, b) == -OrderBy(sorters, b, a)
    decreases |sorters|
  {
    if sorters != [] {
      FieldOrderTotal(sorters[0], a, b);
      OrderByFlips(sorters[1..], a, b);
    }
  }

  lemma {:induction false} OrderByTransitive(sorters: seq<Sorter>, a: Doc, b: Doc, c: Doc)
    ensures OrderBy(sorters, a, b) < 0 && OrderBy(sorters, b, c) <= 0 ==> OrderBy(sorters, a, c) < 0
    ensures OrderBy(sorters, a, b) <= 0 && OrderBy(sorters, b, c) < 0 ==> OrderBy(sorters, a, c) < 0
    ensures OrderBy(sorters, a, b) == 0 && OrderBy(sorters, b, c) == 0 ==> OrderBy(sorters, a, c) == 0
    decreases |sorters|
  {
    if sorters != [] {
      var s := sorters[0];
      FieldOrderTransitive(s, a, b, c);
      FieldOrderTransitive(s, c, b, a);
      FieldOrderTotal(s, a, b);
      FieldOrderTotal(s, b, c);
      FieldOrderTotal(s, a, c);
      OrderByTransitive(sorters[1..], a, b, c);
    }
  }

  lemma {:induction false} OrderByZero(sorters: seq<Sorter>, a: Doc, b: Doc)
    ensures OrderBy(sorters, a, b) == 0 <==> forall s <- sorters :: FieldOrder(s, a, b) == 0
    decreases |sorters|
  {
    if sorters != [] {
      OrderByZero(sorters[1..], a, b);
      assert sorters == [sorters[0]] + sorters[1..];
    }
  }

  /** The first sorter by which they differ decides, in its direction; then the id, in the last one's. */
  lemma FirstSorterDecides(sorters: seq<Sorter>, a: Doc, b: Doc, i: nat)
    requires i <= |sorters| && forall j :: 0 <= j < i ==> FieldOrder(sorters[j], a, b) == 0
    ensures i < |sorters| && FieldOrder(sorters[i], a, b) < 0 ==>
              if sorters[i].ascending then DocOrder(sorters, a, b) < 0 else DocOrder(sorters, a, b) > 0
    ensures i == |sorters| && IdOrder(a.id, b.id) < 0 ==>
              if sorters != [] && sorters[i - 1].ascending then DocOrder(sorters, a, b) < 0
              else DocOrder(sorters, a, b) > 0
    ensures forall s: Sorter :: s.path != [ID] ==>
              FieldOrder(s, a, b)
              == SortValueOrder(SortValueOf(Get(a, s.path), s.ascending), SortValueOf(Get(b, s.path), s.ascending))
  {
    SkipTies(WithTie(sorters), a, b, i);
  }

  lemma {:induction false} SkipTies(sorters: seq<Sorter>, a: Doc, b: Doc, i: nat)
    requires i <= |sorters| && forall j :: 0 <= j < i ==> FieldOrder(sorters[j], a, b) == 0
    ensures OrderBy(sorters, a, b) == OrderBy(sorters[i..], a, b)
    decreases |sorters|
  {
    if i > 0 {
      assert forall j :: 0 <= j < i - 1 ==> sorters[1..][j] == sorters[j + 1];
      SkipTies(sorters[1..], a, b, i - 1);
      assert sorters[1..][i - 1..] == sorters[i..];
    }
  }

  /** Documents with canonical ids are totally ordered: only one and the same id ties. */
  lemma DocOrderTotal(sorters: seq<Sorter>, a: Doc, b: Doc)
    ensures DocOrder(sorters, a, b) == -DocOrder(sorters, b, a)
    ensures CanonicalId(a.id) && CanonicalId(b.id) && DocOrder(sorters, a, b) == 0 ==> a.id == b.id
    ensures a == b ==> DocOrder(sorters, a, b) == 0
  {
    var tie := WithTie(sorters);
    OrderByFlips(tie, a, b);
    OrderByZero(tie, a, b);
    assert tie[|sorters|] in tie;
    IdOrderTotal(a.id, b.id);
  }

  lemma DocOrderTransitive(sorters: seq<Sorter>, a: Doc, b: Doc, c: Doc)
    ensures DocOrder(sorters, a, b) < 0 && DocOrder(sorters, b, c) <= 0 ==> DocOrder(sorters, a, c) < 0
    ensures DocOrder(sorters, a, b) <= 0 && DocOrder(sorters, b, c) < 0 ==> DocOrder(sorters, a, c) < 0
    ensures DocOrder(sorters, a, b) == 0 && DocOrder(sorters, b, c) == 0 ==> DocOrder(sorters, a, c) == 0
  {
    OrderByTransitive(WithTie(sorters), a, b, c);
  }

  /** Documents that agree on every sort value and on the id sort as one: what a cursor relies on. */
  lemma DocOrderAgrees(sorters: seq<Sorter>, a: Doc, b: Doc, other: Doc)
    requires a.id == b.id
    requires forall s <- sorters :: Get(a, s.path) == Get(b, s.path)
    ensures DocOrder(sorters, other, a) < 0 <==> DocOrder(sorters, other, b) < 0
    ensures DocOrder(sorters, other, a) == 0 <==> DocOrder(sorters, other, b) == 0
  {
    var tie := WithTie(sorters);
    forall s | s in tie
      ensures FieldOrder(s, a, b) == 0
    {
      FieldOrderTotal(s, a, a);
    }
    OrderByZero(tie, a, b);
    OrderByFlips(tie, a, b);
    OrderByTransitive(tie, other, a, b);
    OrderByTransitive(tie, other, b, a);
  }
}
