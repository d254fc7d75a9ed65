/**
 * Realtime frames: the MessagePack reader inverts every legal encoding of the MessagePack
 * specification ("Formats"), rejects what is cut short or goes on, and no encoded map or array is
 * taken for JSON. packages/core/src/helpers/decodeMsgpack.ts and
 * packages/core/src/helpers/decodeRealtimeFrame.ts.
 *
 * Strings are their UTF-8 bytes. Floats, extension types and integers a double cannot hold exactly
 * are outside the model: reading one ends in `Outside`.
 */
module Msgpack {
  import opened Wrappers

  type Byte = b: int | 0 <= b < 256
  type Bytes = seq<Byte>

  /** A decoded value; an object's fields by name. */
  datatype Value =
    | Nil
    | Bool(b: bool)
    | Int(n: int)
    | Str(text: Bytes)
    | Bin(data: Bytes)
    | Arr(items: seq<Value>)
    | Obj(fields: map<Bytes, Value>)

  datatype Reading<T> = Got(value: T, rest: Bytes) | Malformed | Outside

  // --- Numbers ---

  /** 256 to the power of `k`. */
  function Limit(k: nat): nat {
    if k == 0 then 1 else 256 * Limit(k - 1)
  }

  function BigEndian(bs: Bytes): (n: nat)
    ensures n < Limit(|bs|)
  {
    if bs == [] then 0 else 256 * BigEndian(bs[..|bs| - 1]) + bs[|bs| - 1]
  }

  function ToBytes(n: nat, k: nat): (bs: Bytes)
    ensures |bs| == k
  {
    if k == 0 then [] else ToBytes(n / 256, k - 1) + [n % 256]
  }

  /** Two's complement. */
  function Signed(n: nat, k: nat): int {
    if 2 * n >= Limit(k) then n - Limit(k) else n
  }

  const MAX_EXACT := 0x20_0000_0000_0000

  /** `Number` of an integer, while a double holds it exactly. */
  function Number(n: int, rest: Bytes): Reading<Value> {
    if -MAX_EXACT <= n <= MAX_EXACT then Got(Int(n), rest) else Outside
  }

  /** Digits of a number used as a key. */
  function Digits(n: nat): Bytes {
    (if n < 10 then [] else Digits(n / 10)) + [48 + n % 10]
  }

  function Decimal(n: int): Bytes {
    if n < 0 then [45] + Digits(-n) else Digits(n)
  }

  // --- What numbers and digits are ---

  lemma LimitsAre(k: nat)
    ensures Limit(1) == 0x100 && Limit(2) == 0x1_0000 && Limit(4) == 0x1_0000_0000
    ensures Limit(8) == 0x1_0000_0000_0000_0000 && Limit(k + 1) == 0x100 * Limit(k)
  {
    assert Limit(3) == 256 * Limit(2) && Limit(5) == 256 * Limit(4) && Limit(6) == 256 * Limit(5);
    assert Limit(7) == 256 * Limit(6);
  }

  lemma Scaled(byte: nat, limit: nat)
    ensures byte * (256 * limit) == 256 * (byte * limit)
  {
  }

  /** The first byte is the most significant one. */
  lemma {:induction false} FirstByteCounts(byte: Byte, rest: Bytes)
    ensures BigEndian([byte] + rest) == byte * Limit(|rest|) + BigEndian(rest)
    decreases |rest|
  {
    var bs := [byte] + rest;
    if rest == [] {
      assert bs[..0] == [];
    } else {
      var n := |rest| - 1;
      FirstByteCounts(byte, rest[..n]);
      assert bs[..|bs| - 1] == [byte] + rest[..n];
      assert BigEndian(bs) == 256 * BigEndian([byte] + rest[..n]) + rest[n];
      assert BigEndian(rest) == 256 * BigEndian(rest[..n]) + rest[n] && Limit(n + 1) == 256 * Limit(n);
      Scaled(byte, Limit(n));
      hide BigEndian, Limit;
    }
  }

  /** Of `k` bytes, the one value of that half-range that differs from `n` by a multiple of 256 to the power `k`. */
  lemma SignedIs(n: nat, k: nat)
    requires n < Limit(k)
    ensures 0 - (Limit(k) as int) <= 2 * Signed(n, k) < Limit(k)
    ensures Signed(n, k) == n || Signed(n, k) == n - Limit(k)
  {
  }

  function DigitsValue(ds: Bytes): int {
    if ds == [] then 0 else 10 * DigitsValue(ds[..|ds| - 1]) + (ds[|ds| - 1] as int) - 48
  }

  lemma DigitsSnoc(ds: Bytes, d: Byte)
    ensures DigitsValue(ds + [d]) == 10 * DigitsValue(ds) + d - 48
  {
    assert (ds + [d])[..|ds|] == ds;
  }

  /** A number's digits read back as the number, and do not start with a zero unless it is all there is. */
  lemma {:induction false} DigitsRead(n: nat)
    ensures DigitsValue(Digits(n)) == n && Digits(n) != [] && (n > 0 ==> Digits(n)[0] != 48)
    ensures forall d <- Digits(n) :: 48 <= d <= 57
    decreases n
  {
    var q, d := n / 10, n % 10;
    assert n == 10 * q + d;
    var init := if n < 10 then [] else Digits(q);
    assert Digits(n) == init + [48 + d];
    DigitsSnoc(init, 48 + d);
    if n >= 10 {
      DigitsRead(q);
      hide Digits, DigitsValue;
    }
  }

  /** An integer key is the name JavaScript writes it as, a minus sign before a negative one. */
  lemma DecimalReads(n: int)
    ensures n >= 0 ==> DigitsValue(Decimal(n)) == n && forall d <- Decimal(n) :: 48 <= d <= 57
    ensures n < 0 ==> Decimal(n)[0] == 45 && DigitsValue(Decimal(n)[1..]) == -n && Decimal(n)[1] != 48
  {
    DigitsRead(if n < 0 then -n else n);
  }

  /** The property name a key stands for: `String(key)`. */
  function NameOf(key: Value): Option<Bytes> {
    match key
    case Str(text) => Some(text)
    case Int(n) => Some(Decimal(n))
    case _ => None
  }

  /** "__proto__" */
  const PROTO: Bytes := [95, 95, 112, 114, 111, 116, 111, 95, 95]

  function With(fields: map<Bytes, Value>, name: Bytes, value: Value): map<Bytes, Value> {
    if name == PROTO then fields else fields[name := value]
  }

  // --- Reading ---

  function ReadNumber(bs: Bytes, k: nat): (r: Reading<nat>)
    ensures r.Got? ==> |r.rest| + k == |bs|
  {
    if |bs| < k then Malformed else Got(BigEndian(bs[..k]), bs[k..])
  }

  function ReadBytes(bs: Bytes, length: nat): (r: Reading<Bytes>)
    ensures r.Got? ==> |r.rest| <= |bs|
  {
    if |bs| < length then Malformed else Got(bs[..length], bs[length..])
  }

  function AsStr(r: Reading<Bytes>): (v: Reading<Value>)
    ensures v.Got? ==> r.Got? && v.rest == r.rest
  {
    match r
    case Got(text, rest) => Got(Str(text), rest)
    case Malformed => Malformed
    case Outside => Outside
  }

  function AsBin(r: Reading<Bytes>): (v: Reading<Value>)
    ensures v.Got? ==> r.Got? && v.rest == r.rest
  {
    match r
    case Got(data, rest) => Got(Bin(data), rest)
    case Malformed => Malformed
    case Outside => Outside
  }

  function ArrayIn(bs: Bytes, length: nat): (r: Reading<Value>)
    ensures r.Got? ==> |r.rest| <= |bs|
    decreases |bs|, 2
  {
    match ReadItems(bs, length)
    case Got(items, rest) => Got(Arr(items), rest)
    case Malformed => Malformed
    case Outside => Outside
  }

  function ReadItems(bs: Bytes, length: nat): (r: Reading<seq<Value>>)
    ensures r.Got? ==> |r.rest| <= |bs| && |r.value| == length
    decreases |bs|, 1
  {
    if length == 0 then Got([], bs)
    else match Read(bs)
      case Got(item, rest) =>
        (match ReadItems(rest, length - 1)
         case Got(items, end) => Got([item] + items, end)
         case Malformed => Malformed
         case Outside => Outside)
      case Malformed => Malformed
      case Outside => Outside
  }

  function MapIn(bs: Bytes, length: nat): (r: Reading<Value>)
    ensures r.Got? ==> |r.rest| <= |bs|
    decreases |bs|, 2
  {
    match ReadEntries(bs, length, map[])
    case Got(fields, rest) => Got(Obj(fields), rest)
    case Malformed => Malformed
    case Outside => Outside
  }

  function ReadEntries(bs: Bytes, length: nat, fields: map<Bytes, Value>): (r: Reading<map<Bytes, Value>>)
    ensures r.Got? ==> |r.rest| <= |bs|
    decreases |bs|, 1
  {
    if length == 0 then Got(fields, bs)
    else match Read(bs)
      case Got(key, rest) =>
        if NameOf(key).None? then Malformed
        else
          (match Read(rest)
           case Got(value, end) => ReadEntries(end, length - 1, With(fields, NameOf(key).value, value))
           case Malformed => Malformed
           case Outside => Outside)
      case Malformed => Malformed
      case Outside => Outside
  }

  /** What follows a length of `k` bytes. */
  datatype Kind = KStr | KBin | KArr | KMap

  function ReadBody(kind: Kind, bs: Bytes, length: nat): (r: Reading<Value>)
    ensures r.Got? ==> |r.rest| <= |bs|
    decreases |bs|, 3
  {
    match kind
    case KStr => AsStr(ReadBytes(bs, length))
    case KBin => AsBin(ReadBytes(bs, length))
    case KArr => ArrayIn(bs, length)
    case KMap => MapIn(bs, length)
  }

  function ReadSized(kind: Kind, bs: Bytes, k: nat): (r: Reading<Value>)
    ensures r.Got? ==> |r.rest| <= |bs|
    decreases |bs|, 4
  {
    match ReadNumber(bs, k)
    case Got(length, rest) => ReadBody(kind, rest, length)
    case Malformed => Malformed
    case Outside => Outside
  }

  function ReadInt(bs: Bytes, k: nat, signed: bool): (r: Reading<Value>)
    ensures r.Got? ==> |r.rest| <= |bs|
  {
    match ReadNumber(bs, k)
    case Got(n, rest) => Number(if signed then Signed(n, k) else n, rest)
    case Malformed => Malformed
    case Outside => Outside
  }

  /** `readValue` */
  function Read(bs: Bytes): (r: Reading<Value>)
    ensures r.Got? ==> |r.rest| < |bs|
    decreases |bs|, 0
  {
    if bs == [] then Malformed
    else ReadTagged(bs[0], bs[1..])
  }

  function ReadTagged(byte: Byte, bs: Bytes): (r: Reading<Value>)
    ensures r.Got? ==> |r.rest| <= |bs|
    decreases |bs|, 5
  {
    if byte <= 0x7f then Got(Int(byte), bs)
    else if byte <= 0x8f then ReadBody(KMap, bs, byte - 0x80)
    else if byte <= 0x9f then ReadBody(KArr, bs, byte - 0x90)
    else if byte <= 0xbf then ReadBody(KStr, bs, byte - 0xa0)
    else if byte >= 0xe0 then Got(Int(byte - 0x100), bs)
    else if byte == 0xc0 then Got(Nil, bs)
    else if byte == 0xc2 then Got(Bool(false), bs)
    else if byte == 0xc3 then Got(Bool(true), bs)
    else if 0xc4 <= byte <= 0xc6 then ReadSized(KBin, bs, Width(byte - 0xc4))
    else if 0xcc <= byte <= 0xcf then ReadInt(bs, Width(byte - 0xcc), false)
    else if 0xd0 <= byte <= 0xd3 then ReadInt(bs, Width(byte - 0xd0), true)
    else if 0xd9 <= byte <= 0xdb then ReadSized(KStr, bs, Width(byte - 0xd9))
    else if 0xdc <= byte <= 0xdd then ReadSized(KArr, bs, Width(byte - 0xdb))
    else if 0xde <= byte <= 0xdf then ReadSized(KMap, bs, Width(byte - 0xdd))
    else if byte == 0xc1 then Malformed
    else Outside
  }

  /** 1, 2, 4 or 8 bytes. */
  function Width(i: nat): nat {
    if i == 0 then 1 else if i == 1 then 2 else if i == 2 then 4 else 8
  }

  /** `decodeMsgpack` */
  function Decoded(bs: Bytes): Reading<Value> {
    match Read(bs)
    case Got(value, rest) => if rest == [] then Got(value, []) else Malformed
    case Malformed => Malformed
    case Outside => Outside
  }

  // --- The format ---

  /** How an integer is written: in its first byte, or as 1, 2, 4 or 8 bytes without or with sign. */
  datatype IntForm = Fix | Unsigned(w: nat) | TwosComplement(w: nat)

  /**
   * A value with the widths its encoder chose. Lengths take `w` bytes; `w == 0` is the form with the
   * length in the first byte.
   */
  datatype Enc =
    | ENil
    | EBool(b: bool)
    | EInt(n: int, form: IntForm)
    | EStr(text: Bytes, w: nat)
    | EBin(data: Bytes, w: nat)
    | EArr(items: seq<Enc>, w: nat)
    | EMap(entries: seq<Entry>, w: nat)

  datatype Entry = Entry(key: Enc, value: Enc)

  predicate IsWidth(w: nat) { w in {1, 2, 4, 8} }

  /** The largest length the first byte holds, plus one. */
  function FixLimit(kind: Kind): nat {
    match kind
    case KStr => 32
    case KBin => 0
    case KArr => 16
    case KMap => 16
  }

  predicate LegalLength(kind: Kind, w: nat, n: nat) {
    if w == 0 then n < FixLimit(kind)
    else w in {1, 2, 4} && n < Limit(w) && (kind.KArr? || kind.KMap? ==> w != 1)
  }

  predicate LegalInt(n: int, form: IntForm) {
    && -MAX_EXACT <= n <= MAX_EXACT
    && match form
       case Fix => -32 <= n <= 127
       case Unsigned(w) => IsWidth(w) && 0 <= n < Limit(w)
       case TwosComplement(w) => IsWidth(w) && 0 <= 2 * n + Limit(w) < 2 * Limit(w)
  }

  /** Frames are JSON-shaped: a key is a string, or a number standing for one. */
  predicate IsKey(e: Enc) { e.EStr? || e.EInt? }

  predicate Legal(e: Enc) {
    match e
    case ENil => true
    case EBool(_) => true
    case EInt(n, form) => LegalInt(n, form)
    case EStr(text, w) => LegalLength(KStr, w, |text|)
    case EBin(data, w) => LegalLength(KBin, w, |data|)
    case EArr(items, w) => LegalLength(KArr, w, |items|) && forall item <- items :: Legal(item)
    case EMap(entries, w) => LegalLength(KMap, w, |entries|) && forall entry <- entries ::
        Legal(entry.key) && Legal(entry.value) && IsKey(entry.key)
  }

  function Tag(kind: Kind, w: nat, n: nat): Byte
    requires LegalLength(kind, w, n)
  {
    match kind
    case KStr => if w == 0 then 0xa0 + n else if w == 1 then 0xd9 else if w == 2 then 0xda else 0xdb
    case KBin => if w == 1 then 0xc4 else if w == 2 then 0xc5 else 0xc6
    case KArr => if w == 0 then 0x90 + n else if w == 2 then 0xdc else 0xdd
    case KMap => if w == 0 then 0x80 + n else if w == 2 then 0xde else 0xdf
  }

  function Head(kind: Kind, w: nat, n: nat): Bytes
    requires LegalLength(kind, w, n)
  {
    [Tag(kind, w, n)] + ToBytes(n, w)
  }

  function WidthIndex(w: nat): nat {
    if w == 1 then 0 else if w == 2 then 1 else if w == 4 then 2 else 3
  }

  function IntBytes(n: int, form: IntForm): (bs: Bytes)
    requires LegalInt(n, form)
    ensures |bs| > 0
  {
    match form
    case Fix => [if n < 0 then n + 0x100 else n]
    case Unsigned(w) => [0xcc + WidthIndex(w)] + ToBytes(n, w)
    case TwosComplement(w) => [0xd0 + WidthIndex(w)] + ToBytes(if n < 0 then n + Limit(w) else n, w)
  }

  /** The bytes of an encoding. */
  function Encoded(e: Enc): (bs: Bytes)
    requires Legal(e)
    ensures |bs| > 0
    decreases e, 1
  {
    match e
    case ENil => [0xc0]
    case EBool(b) => [if b then 0xc3 else 0xc2]
    case EInt(n, form) => IntBytes(n, form)
    case EStr(text, w) => Head(KStr, w, |text|) + text
    case EBin(data, w) => Head(KBin, w, |data|) + data
    case EArr(items, w) => Head(KArr, w, |items|) + EncodedItems(items)
    case EMap(entries, w) => Head(KMap, w, |entries|) + EncodedEntries(entries)
  }

  function EncodedItems(items: seq<Enc>): Bytes
    requires forall item <- items :: Legal(item)
    decreases items, 0
  {
    if items == [] then [] else Encoded(items[0]) + EncodedItems(items[1..])
  }

  function EncodedEntry(entry: Entry): Bytes
    requires Legal(entry.key) && Legal(entry.value)
    decreases entry, 0
  {
    Encoded(entry.key) + Encoded(entry.value)
  }

  function EncodedEntries(entries: seq<Entry>): Bytes
    requires forall entry <- entries :: Legal(entry.key) && Legal(entry.value)
    decreases entries, 0
  {
    if entries == [] then [] else EncodedEntry(entries[0]) + EncodedEntries(entries[1..])
  }

  /** What it encodes. */
  function ValueOf(e: Enc): Value
    decreases e, 1
  {
    match e
    case ENil => Nil
    case EBool(b) => Bool(b)
    case EInt(n, _) => Int(n)
    case EStr(text, _) => Str(text)
    case EBin(data, _) => Bin(data)
    case EArr(items, _) => Arr(ValuesOf(items))
    case EMap(entries, _) => Obj(FieldsOf(entries, map[]))
  }

  function ValuesOf(items: seq<Enc>): (vs: seq<Value>)
    ensures |vs| == |items|
    decreases items, 0
  {
    if items == [] then [] else [ValueOf(items[0])] + ValuesOf(items[1..])
  }

  /** A later entry goes over an earlier one of its name; `__proto__` is no field. */
  function Added(fields: map<Bytes, Value>, entry: Entry): map<Bytes, Value>
    decreases entry, 0
  {
    var name := NameOf(ValueOf(entry.key));
    if name.Some? then With(fields, name.value, ValueOf(entry.value)) else fields
  }

  function FieldsOf(entries: seq<Entry>, fields: map<Bytes, Value>): map<Bytes, Value>
    decreases entries, 0
  {
    if entries == [] then fields else FieldsOf(entries[1..], Added(fields, entries[0]))
  }

  // --- Every legal encoding decodes ---

  lemma {:induction false} BigEndianInverts(n: nat, k: nat)
    requires n < Limit(k)
    ensures BigEndian(ToBytes(n, k)) == n
    decreases k
  {
    if k > 0 {
      BigEndianInverts(n / 256, k - 1);
      var bs := ToBytes(n, k);
      assert bs[..|bs| - 1] == ToBytes(n / 256, k - 1);
    }
  }

  lemma NumberReads(n: nat, k: nat, rest: Bytes)
    requires n < Limit(k)
    ensures ReadNumber(ToBytes(n, k) + rest, k) == Got(n, rest)
  {
    BigEndianInverts(n, k);
    assert (ToBytes(n, k) + rest)[..k] == ToBytes(n, k);
    assert (ToBytes(n, k) + rest)[k..] == rest;
  }

  lemma ReadSplits(byte: Byte, bs: Bytes)
    ensures Read([byte] + bs) == ReadTagged(byte, bs)
  {
    assert ([byte] + bs)[1..] == bs;
  }

  /** A tag says what follows it: the body at once, or its length in so many bytes. */
  lemma TagReads(kind: Kind, w: nat, n: nat, bs: Bytes)
    requires LegalLength(kind, w, n)
    ensures ReadTagged(Tag(kind, w, n), bs) == if w == 0 then ReadBody(kind, bs, n) else ReadSized(kind, bs, w)
  {
    hide ReadBody, ReadSized, ReadInt;
  }

  lemma SizedReads(kind: Kind, w: nat, n: nat, body: Bytes)
    requires n < Limit(w)
    ensures ReadSized(kind, ToBytes(n, w) + body, w) == ReadBody(kind, body, n)
  {
    NumberReads(n, w, body);
    hide ReadBody, ReadNumber, ToBytes, Limit;
  }

  /** Whatever its width, a head announces the body. */
  lemma HeadReads(kind: Kind, w: nat, n: nat, body: Bytes)
    requires LegalLength(kind, w, n)
    ensures Read(Head(kind, w, n) + body) == ReadBody(kind, body, n)
  {
    var bs := ToBytes(n, w) + body;
    assert Head(kind, w, n) + body == [Tag(kind, w, n)] + bs;
    ReadSplits(Tag(kind, w, n), bs);
    TagReads(kind, w, n, bs);
    if w == 0 {
      assert bs == body;
    } else {
      SizedReads(kind, w, n, body);
    }
    hide *;
  }

  lemma Regroups(a: Bytes, b: Bytes, c: Bytes)
    ensures (a + b) + c == a + (b + c)
  {
  }

  lemma IntTagReads(w: nat, signed: bool, bs: Bytes)
    requires IsWidth(w)
    ensures Read([(if signed then 0xd0 else 0xcc) + WidthIndex(w)] + bs) == ReadInt(bs, w, signed)
  {
    ReadSplits((if signed then 0xd0 else 0xcc) + WidthIndex(w), bs);
    hide ReadInt, ReadBody, ReadSized;
  }

  lemma WrittenReads(n: int, w: nat, signed: bool, rest: Bytes)
    requires LegalInt(n, if signed then TwosComplement(w) else Unsigned(w))
    ensures ReadInt(ToBytes(if n < 0 then n + Limit(w) else n, w) + rest, w, signed) == Got(Int(n), rest)
  {
    NumberReads(if n < 0 then n + Limit(w) else n, w, rest);
    hide ToBytes, Limit, ReadNumber;
  }

  lemma WideIntReads(n: int, form: IntForm, rest: Bytes)
    requires LegalInt(n, form) && !form.Fix?
    ensures Read(IntBytes(n, form) + rest) == Got(Int(n), rest)
  {
    var signed := form.TwosComplement?;
    var tag, written := (if signed then 0xd0 else 0xcc) + WidthIndex(form.w),
        ToBytes(if n < 0 then n + Limit(form.w) else n, form.w);
    assert IntBytes(n, form) == [tag] + written;
    IntTagReads(form.w, signed, written + rest);
    WrittenReads(n, form.w, signed, rest);
    Regroups([tag], written, rest);
    hide *;
  }

  lemma IntReads(n: int, form: IntForm, rest: Bytes)
    requires LegalInt(n, form)
    ensures Read(IntBytes(n, form) + rest) == Got(Int(n), rest)
  {
    if form.Fix? {
      ReadSplits(IntBytes(n, form)[0], rest);
      hide ReadBody, ReadSized, ReadInt;
    } else {
      WideIntReads(n, form, rest);
      hide *;
    }
  }

  /** Every legal encoding, at any width, decodes to its value and takes exactly its own bytes. */
  lemma {:induction false} Inverts(e: Enc, rest: Bytes)
    requires Legal(e)
    ensures Read(Encoded(e) + rest) == Got(ValueOf(e), rest)
    decreases e, 1
  {
    match e {
      case ENil =>
        ReadSplits(0xc0, rest);
      case EBool(b) =>
        ReadSplits(if b then 0xc3 else 0xc2, rest);
      case EInt(n, form) =>
        IntReads(n, form, rest);
      case EStr(text, w) =>
        SizedSplits(KStr, w, |text|, text, rest);
        assert (text + rest)[..|text|] == text && (text + rest)[|text|..] == rest;
      case EBin(data, w) =>
        SizedSplits(KBin, w, |data|, data, rest);
        assert (data + rest)[..|data|] == data && (data + rest)[|data|..] == rest;
      case EArr(items, w) =>
        SizedSplits(KArr, w, |items|, EncodedItems(items), rest);
        ItemsInvert(items, rest);
      case EMap(entries, w) =>
        SizedSplits(KMap, w, |entries|, EncodedEntries(entries), rest);
        EntriesInvert(entries, map[], rest);
    }
  }

  lemma SizedSplits(kind: Kind, w: nat, n: nat, body: Bytes, rest: Bytes)
    requires LegalLength(kind, w, n)
    ensures Read((Head(kind, w, n) + body) + rest) == ReadBody(kind, body + rest, n)
  {
    assert (Head(kind, w, n) + body) + rest == Head(kind, w, n) + (body + rest);
    HeadReads(kind, w, n, body + rest);
  }

  lemma {:induction false} ItemsInvert(items: seq<Enc>, rest: Bytes)
    requires forall item <- items :: Legal(item)
    ensures ReadItems(EncodedItems(items) + rest, |items|) == Got(ValuesOf(items), rest)
    decreases items, 0
  {
    if items == [] {
      assert EncodedItems(items) + rest == rest;
    } else {
      var tail := EncodedItems(items[1..]) + rest;
      assert EncodedItems(items) + rest == Encoded(items[0]) + tail;
      Inverts(items[0], tail);
      ItemsInvert(items[1..], rest);
    }
  }

  lemma {:induction false} EntryInverts(entry: Entry, rest: Bytes)
    requires Legal(entry.key) && Legal(entry.value)
    ensures Read(EncodedEntry(entry) + rest) == Got(ValueOf(entry.key), Encoded(entry.value) + rest)
    ensures Read(Encoded(entry.value) + rest) == Got(ValueOf(entry.value), rest)
    decreases entry, 0
  {
    assert EncodedEntry(entry) + rest == Encoded(entry.key) + (Encoded(entry.value) + rest);
    Inverts(entry.key, Encoded(entry.value) + rest);
    Inverts(entry.value, rest);
  }

  lemma {:induction false} EntriesInvert(entries: seq<Entry>, fields: map<Bytes, Value>, rest: Bytes)
    requires forall entry <- entries :: Legal(entry.key) && Legal(entry.value) && IsKey(entry.key)
    ensures ReadEntries(EncodedEntries(entries) + rest, |entries|, fields) == Got(FieldsOf(entries, fields), rest)
    decreases entries, 0
  {
    if entries == [] {
      assert EncodedEntries(entries) + rest == rest;
    } else {
      var tail := EncodedEntries(entries[1..]) + rest;
      assert EncodedEntries(entries) + rest == EncodedEntry(entries[0]) + tail;
      EntryInverts(entries[0], tail);
      EntriesInvert(entries[1..], Added(fields, entries[0]), rest);
    }
  }

  lemma AddedIs(fields: map<Bytes, Value>, entry: Entry)
    requires entry.key.EStr?
    ensures Added(fields, entry) == With(fields, entry.key.text, ValueOf(entry.value))
  {
    assert ValueOf(entry.key) == Str(entry.key.text);
  }

  lemma {:induction false} OtherFieldsStay(entries: seq<Entry>, fields: map<Bytes, Value>, name: Bytes)
    requires forall i :: 0 <= i < |entries| ==> entries[i].key.EStr? && entries[i].key.text != name
    ensures name in FieldsOf(entries, fields) <==> name in fields
    ensures name in fields ==> FieldsOf(entries, fields)[name] == fields[name]
  {
    if entries != [] {
      AddedIs(fields, entries[0]);
      OtherFieldsStay(entries[1..], Added(fields, entries[0]), name);
    }
  }

  lemma {:induction false} FieldIs(entries: seq<Entry>, fields: map<Bytes, Value>, i: nat)
    requires i < |entries| && entries[i].key.EStr? && entries[i].key.text != PROTO
    requires forall j :: i < j < |entries| ==> entries[j].key.EStr? && entries[j].key.text != entries[i].key.text
    ensures entries[i].key.text in FieldsOf(entries, fields)
    ensures FieldsOf(entries, fields)[entries[i].key.text] == ValueOf(entries[i].value)
  {
    if i == 0 {
      AddedIs(fields, entries[0]);
      OtherFieldsStay(entries[1..], Added(fields, entries[0]), entries[0].key.text);
    } else {
      FieldIs(entries[1..], Added(fields, entries[0]), i - 1);
    }
  }

  /** A map whose keys are distinct ordinary strings decodes to the object with those fields. */
  lemma PlainMap(entries: seq<Entry>, name: Bytes)
    requires forall i :: 0 <= i < |entries| ==> entries[i].key.EStr? && entries[i].key.text != PROTO
    requires forall i, j :: 0 <= i < j < |entries| ==> entries[i].key.text != entries[j].key.text
    ensures name in FieldsOf(entries, map[]) <==> exists i :: 0 <= i < |entries| && entries[i].key.text == name
    ensures forall i :: 0 <= i < |entries| ==>
      entries[i].key.text in FieldsOf(entries, map[])
        && FieldsOf(entries, map[])[entries[i].key.text] == ValueOf(entries[i].value)
  {
    forall i | 0 <= i < |entries|
      ensures entries[i].key.text in FieldsOf(entries, map[])
      ensures FieldsOf(entries, map[])[entries[i].key.text] == ValueOf(entries[i].value)
    {
      FieldIs(entries, map[], i);
    }
    if forall i :: 0 <= i < |entries| ==> entries[i].key.text != name {
      OtherFieldsStay(entries, map[], name);
    }
  }

  // --- Cut short ---

  /** `bs` without its last `k` bytes. */
  function Shorter(bs: Bytes, k: nat): Bytes
    requires k <= |bs|
  {
    bs[..|bs| - k]
  }

  /** What a reader that took everything but `rest` makes of `k` bytes fewer. */
  function Trimmed<T>(r: Reading<T>, k: nat): Reading<T>
    requires r.Got?
  {
    if k <= |r.rest| then Got(r.value, Shorter(r.rest, k)) else Malformed
  }

  lemma NumberTrims(bs: Bytes, n: nat, k: nat)
    requires k <= |bs| && n <= |bs|
    ensures ReadNumber(Shorter(bs, k), n) == Trimmed(ReadNumber(bs, n), k)
  {
    if k <= |bs| - n {
      assert Shorter(bs, k)[..n] == bs[..n];
      assert Shorter(bs, k)[n..] == Shorter(bs[n..], k);
    }
  }

  lemma BytesTrim(bs: Bytes, n: nat, k: nat)
    requires k <= |bs| && n <= |bs|
    ensures ReadBytes(Shorter(bs, k), n) == Trimmed(ReadBytes(bs, n), k)
  {
    if k <= |bs| - n {
      assert Shorter(bs, k)[..n] == bs[..n];
      assert Shorter(bs, k)[n..] == Shorter(bs[n..], k);
    }
  }

  /** With the end of its input gone, the reader reads the same value or finds its input cut short. */
  lemma {:induction false} Trims(bs: Bytes, k: nat)
    requires k <= |bs| && Read(bs).Got?
    ensures Read(Shorter(bs, k)) == Trimmed(Read(bs), k)
    decreases |bs|, 0
  {
    if k < |bs| {
      assert Shorter(bs, k)[1..] == Shorter(bs[1..], k);
      TaggedTrims(bs[0], bs[1..], k);
    }
  }

  lemma {:induction false} TaggedTrims(byte: Byte, bs: Bytes, k: nat)
    requires k <= |bs| && ReadTagged(byte, bs).Got?
    ensures ReadTagged(byte, Shorter(bs, k)) == Trimmed(ReadTagged(byte, bs), k)
    decreases |bs|, 5
  {
    hide ReadNumber, ReadBody, ReadSized, Shorter, Signed, Limit;
    if 0xcc <= byte <= 0xcf {
      NumberTrims(bs, Width(byte - 0xcc), k);
    } else if 0xd0 <= byte <= 0xd3 {
      NumberTrims(bs, Width(byte - 0xd0), k);
    } else if 0x80 <= byte <= 0x8f {
      BodyTrims(KMap, bs, byte - 0x80, k);
    } else if 0x90 <= byte <= 0x9f {
      BodyTrims(KArr, bs, byte - 0x90, k);
    } else if 0xa0 <= byte <= 0xbf {
      BodyTrims(KStr, bs, byte - 0xa0, k);
    } else if 0xc4 <= byte <= 0xc6 {
      SizedTrims(KBin, bs, Width(byte - 0xc4), k);
    } else if 0xd9 <= byte <= 0xdb {
      SizedTrims(KStr, bs, Width(byte - 0xd9), k);
    } else if 0xdc <= byte <= 0xdd {
      SizedTrims(KArr, bs, Width(byte - 0xdb), k);
    } else if 0xde <= byte <= 0xdf {
      SizedTrims(KMap, bs, Width(byte - 0xdd), k);
    }
  }

  lemma {:induction false} SizedTrims(kind: Kind, bs: Bytes, w: nat, k: nat)
    requires k <= |bs| && ReadSized(kind, bs, w).Got?
    ensures ReadSized(kind, Shorter(bs, k), w) == Trimmed(ReadSized(kind, bs, w), k)
    decreases |bs|, 4
  {
    NumberTrims(bs, w, k);
    if k <= |bs| - w {
      BodyTrims(kind, bs[w..], ReadNumber(bs, w).value, k);
    }
  }

  lemma {:induction false} BodyTrims(kind: Kind, bs: Bytes, length: nat, k: nat)
    requires k <= |bs| && ReadBody(kind, bs, length).Got?
    ensures ReadBody(kind, Shorter(bs, k), length) == Trimmed(ReadBody(kind, bs, length), k)
    decreases |bs|, 3
  {
    match kind {
      case KStr => BytesTrim(bs, length, k);
      case KBin => BytesTrim(bs, length, k);
      case KArr => ItemsTrim(bs, length, k);
      case KMap => EntriesTrim(bs, length, map[], k);
    }
  }

  lemma {:induction false} ItemsTrim(bs: Bytes, length: nat, k: nat)
    requires k <= |bs| && ReadItems(bs, length).Got?
    ensures ReadItems(Shorter(bs, k), length) == Trimmed(ReadItems(bs, length), k)
    decreases |bs|, 1
  {
    if length > 0 {
      Trims(bs, k);
      if k <= |Read(bs).rest| {
        ItemsTrim(Read(bs).rest, length - 1, k);
      }
    }
  }

  lemma {:induction false} EntriesTrim(bs: Bytes, length: nat, fields: map<Bytes, Value>, k: nat)
    requires k <= |bs| && ReadEntries(bs, length, fields).Got?
    ensures ReadEntries(Shorter(bs, k), length, fields) == Trimmed(ReadEntries(bs, length, fields), k)
    decreases |bs|, 1
  {
    if length > 0 {
      Trims(bs, k);
      var rest := Read(bs).rest;
      if k <= |rest| {
        Trims(rest, k);
        var end := Read(rest).rest;
        if k <= |end| {
          EntriesTrim(end, length - 1, With(fields, NameOf(Read(bs).value).value, Read(rest).value), k);
        }
      }
    }
  }

  /** A legal encoding is decoded; cut short anywhere it is refused, and so is anything after it. */
  lemma ExactlyItsBytes(e: Enc, n: nat, more: Bytes)
    requires Legal(e) && n < |Encoded(e)| && more != []
    ensures Decoded(Encoded(e)) == Got(ValueOf(e), [])
    ensures Decoded(Encoded(e)[..n]) == Malformed
    ensures Decoded(Encoded(e) + more) == Malformed
  {
    Inverts(e, more);
    Inverts(e, []);
    assert Encoded(e) + [] == Encoded(e);
    Trims(Encoded(e), |Encoded(e)| - n);
  }

  // --- Nothing else decodes ---

  lemma {:induction false} ToBytesInverts(bs: Bytes)
    ensures ToBytes(BigEndian(bs), |bs|) == bs
  {
    if bs != [] {
      ToBytesInverts(bs[..|bs| - 1]);
    }
  }

  lemma Widths(w: nat)
    requires IsWidth(w)
    ensures Limit(1) == 0x100 && Limit(2) == 0x1_0000 && Limit(4) == 0x1_0000_0000
    ensures Limit(w) % 2 == 0 && Width(WidthIndex(w)) == w
  {
    assert Limit(2) == 256 * Limit(1) && Limit(3) == 256 * Limit(2) && Limit(4) == 256 * Limit(3);
  }

  /** Whatever is read was legally encoded: there is an encoding of the value read in the bytes taken. */
  lemma {:induction false} Accepts(bs: Bytes) returns (e: Enc)
    requires Read(bs).Got?
    ensures Legal(e) && ValueOf(e) == Read(bs).value && Encoded(e) + Read(bs).rest == bs
    decreases |bs|, 0
  {
    e := TaggedAccepts(bs[0], bs[1..]);
  }

  lemma {:induction false} TaggedAccepts(byte: Byte, bs: Bytes) returns (e: Enc)
    requires ReadTagged(byte, bs).Got?
    ensures Legal(e) && ValueOf(e) == ReadTagged(byte, bs).value
    ensures Encoded(e) + ReadTagged(byte, bs).rest == [byte] + bs
    decreases |bs|, 5
  {
    hide ReadNumber, ReadBody, ReadSized, ReadInt, Limit, Head;
    if byte <= 0x7f {
      e := EInt(byte, Fix);
    } else if byte <= 0x8f {
      e := FixAccepts(KMap, bs, byte - 0x80);
    } else if byte <= 0x9f {
      e := FixAccepts(KArr, bs, byte - 0x90);
    } else if byte <= 0xbf {
      e := FixAccepts(KStr, bs, byte - 0xa0);
    } else if byte >= 0xe0 {
      e := EInt(byte - 0x100, Fix);
    } else if byte == 0xc0 {
      e := ENil;
    } else if byte == 0xc2 || byte == 0xc3 {
      e := EBool(byte == 0xc3);
    } else if byte <= 0xc6 {
      e := SizedAccepts(KBin, bs, Width(byte - 0xc4));
    } else if byte <= 0xcf {
      e := IntAccepts(bs, Width(byte - 0xcc), false);
    } else if byte <= 0xd3 {
      e := IntAccepts(bs, Width(byte - 0xd0), true);
    } else if byte <= 0xdb {
      e := SizedAccepts(KStr, bs, Width(byte - 0xd9));
    } else if byte <= 0xdd {
      e := SizedAccepts(KArr, bs, Width(byte - 0xdb));
    } else {
      e := SizedAccepts(KMap, bs, Width(byte - 0xdd));
    }
  }

  lemma FixAccepts(kind: Kind, bs: Bytes, length: nat) returns (e: Enc)
    requires LegalLength(kind, 0, length) && ReadBody(kind, bs, length).Got?
    ensures Legal(e) && ValueOf(e) == ReadBody(kind, bs, length).value
    ensures Encoded(e) + ReadBody(kind, bs, length).rest == [Tag(kind, 0, length)] + bs
    decreases |bs|, 4
  {
    e := BodyAccepts(kind, 0, bs, length);
    assert Head(kind, 0, length) == [Tag(kind, 0, length)];
  }

  lemma SizedAccepts(kind: Kind, bs: Bytes, w: nat) returns (e: Enc)
    requires w in {1, 2, 4} && (kind.KArr? || kind.KMap? ==> w != 1) && ReadSized(kind, bs, w).Got?
    ensures Legal(e) && ValueOf(e) == ReadSized(kind, bs, w).value
    ensures Encoded(e) + ReadSized(kind, bs, w).rest == [Tag(kind, w, 0)] + bs
    decreases |bs|, 4
  {
    var length := BigEndian(bs[..w]);
    HeadAccepts(kind, bs, w);
    hide BigEndian, ReadBody, Head, Limit, Tag;
    e := BodyAccepts(kind, w, bs[w..], length);
  }

  lemma HeadAccepts(kind: Kind, bs: Bytes, w: nat)
    requires w in {1, 2, 4} && (kind.KArr? || kind.KMap? ==> w != 1) && w <= |bs|
    ensures LegalLength(kind, w, BigEndian(bs[..w]))
    ensures Head(kind, w, BigEndian(bs[..w])) + bs[w..] == [Tag(kind, w, 0)] + bs
  {
    ToBytesInverts(bs[..w]);
    assert bs[..w] + bs[w..] == bs;
    hide ToBytes, BigEndian;
  }

  lemma IntAccepts(bs: Bytes, w: nat, signed: bool) returns (e: Enc)
    requires IsWidth(w) && ReadInt(bs, w, signed).Got?
    ensures Legal(e) && ValueOf(e) == ReadInt(bs, w, signed).value
    ensures Encoded(e) + ReadInt(bs, w, signed).rest == [(if signed then 0xd0 else 0xcc) + WidthIndex(w)] + bs
  {
    ToBytesInverts(bs[..w]);
    var n := BigEndian(bs[..w]);
    SignedFits(n, w);
    e := if signed then EInt(Signed(n, w), TwosComplement(w)) else EInt(n, Unsigned(w));
    var tag: Bytes := [(if signed then 0xd0 else 0xcc) + WidthIndex(w)];
    Regroups(tag, bs[..w], bs[w..]);
    assert bs[..w] + bs[w..] == bs;
    hide BigEndian, ToBytes, Limit, Signed;
  }

  lemma SignedFits(n: nat, w: nat)
    requires n < Limit(w)
    ensures 0 <= 2 * Signed(n, w) + Limit(w) < 2 * Limit(w)
    ensures (if Signed(n, w) < 0 then Signed(n, w) + Limit(w) else Signed(n, w)) == n
  {
  }

  lemma {:induction false} BodyAccepts(kind: Kind, w: nat, bs: Bytes, length: nat) returns (e: Enc)
    requires LegalLength(kind, w, length) && ReadBody(kind, bs, length).Got?
    ensures Legal(e) && ValueOf(e) == ReadBody(kind, bs, length).value
    ensures Encoded(e) + ReadBody(kind, bs, length).rest == Head(kind, w, length) + bs
    decreases |bs|, 3
  {
    match kind {
      case KStr =>
        e := EStr(bs[..length], w);
      case KBin =>
        e := EBin(bs[..length], w);
      case KArr =>
        var items := ItemsAccept(bs, length);
        e := EArr(items, w);
      case KMap =>
        var entries := EntriesAccept(bs, length, map[]);
        e := EMap(entries, w);
    }
  }

  lemma {:induction false} ItemsAccept(bs: Bytes, length: nat) returns (items: seq<Enc>)
    requires ReadItems(bs, length).Got?
    ensures |items| == length && forall item <- items :: Legal(item)
    ensures ValuesOf(items) == ReadItems(bs, length).value
    ensures EncodedItems(items) + ReadItems(bs, length).rest == bs
    decreases |bs|, 1
  {
    items := [];
    if length > 0 {
      var item := Accepts(bs);
      var tail := ItemsAccept(Read(bs).rest, length - 1);
      items := [item] + tail;
      assert items[1..] == tail;
    }
  }

  lemma {:induction false} EntriesAccept(bs: Bytes, length: nat, fields: map<Bytes, Value>)
      returns (entries: seq<Entry>)
    requires ReadEntries(bs, length, fields).Got?
    ensures |entries| == length
    ensures forall entry <- entries :: Legal(entry.key) && Legal(entry.value) && IsKey(entry.key)
    ensures FieldsOf(entries, fields) == ReadEntries(bs, length, fields).value
    ensures EncodedEntries(entries) + ReadEntries(bs, length, fields).rest == bs
    decreases |bs|, 1
  {
    entries := [];
    if length > 0 {
      var key := Accepts(bs);
      var rest := Read(bs).rest;
      var value := Accepts(rest);
      var entry := Entry(key, value);
      var tail := EntriesAccept(Read(rest).rest, length - 1, Added(fields, entry));
      EntryJoins(entry, tail, fields, ReadEntries(bs, length, fields).rest);
      entries := [entry] + tail;
      hide Read, Encoded, FieldsOf, EncodedEntries, Legal, ValueOf;
    }
  }

  lemma EntryJoins(entry: Entry, tail: seq<Entry>, fields: map<Bytes, Value>, rest: Bytes)
    requires forall each <- [entry] + tail :: Legal(each.key) && Legal(each.value)
    ensures FieldsOf([entry] + tail, fields) == FieldsOf(tail, Added(fields, entry))
    ensures EncodedEntries([entry] + tail) + rest == Encoded(entry.key)
        + (Encoded(entry.value) + (EncodedEntries(tail) + rest))
  {
    assert ([entry] + tail)[1..] == tail;
    var key, value, others := Encoded(entry.key), Encoded(entry.value), EncodedEntries(tail);
    Regroups(key + value, others, rest);
    Regroups(key, value, others + rest);
    hide Encoded, ValueOf, Legal;
  }

  /** The reader accepts the legal encodings and nothing else, as the values they encode. */
  lemma DecodesExactly(bs: Bytes, v: Value)
    ensures Decoded(bs) == Got(v, []) <==> exists e :: Legal(e) && Encoded(e) == bs && ValueOf(e) == v
  {
    if Decoded(bs) == Got(v, []) {
      var e := Accepts(bs);
    }
    forall e | Legal(e) && Encoded(e) == bs && ValueOf(e) == v
      ensures Decoded(bs) == Got(v, [])
    {
      Inverts(e, []);
      assert Encoded(e) + [] == bs;
    }
  }

  // --- The reader ---

  /** How a call ends: with a value, by throwing, or in what the model leaves out. */
  datatype Outcome<T> = Done(value: T) | Throws | Beyond

  predicate Ends<T(==)>(o: Outcome<T>, r: Reading<T>, rest: Bytes) {
    match r
    case Got(value, end) => o == Done(value) && rest == end
    case Malformed => o == Throws
    case Outside => o == Beyond
  }

  /** What is left of reading `length` items once `read` of them are read. */
  function After(read: seq<Value>, r: Reading<seq<Value>>): Reading<seq<Value>> {
    match r
    case Got(items, rest) => Got(read + items, rest)
    case Malformed => Malformed
    case Outside => Outside
  }

  lemma OneItem(read: seq<Value>, bs: Bytes, length: nat)
    requires length > 0
    ensures match Read(bs)
            case Got(item, rest) => After(read, ReadItems(bs, length))
                == After(read + [item], ReadItems(rest, length - 1))
            case Malformed => After(read, ReadItems(bs, length)) == Malformed
            case Outside => After(read, ReadItems(bs, length)) == Outside
  {
    if Read(bs).Got? {
      var tail := ReadItems(Read(bs).rest, length - 1);
      if tail.Got? {
        assert read + ([Read(bs).value] + tail.value) == (read + [Read(bs).value]) + tail.value;
      }
    }
  }

  lemma NoItems(r: Reading<seq<Value>>)
    ensures After([], r) == r
  {
    if r.Got? {
      assert [] + r.value == r.value;
    }
  }

  lemma OneEntry(bs: Bytes, length: nat, fields: map<Bytes, Value>)
    requires length > 0
    ensures Read(bs).Malformed? ==> ReadEntries(bs, length, fields) == Malformed
    ensures Read(bs).Outside? ==> ReadEntries(bs, length, fields) == Outside
    ensures Read(bs).Got? && NameOf(Read(bs).value).Some? ==>
      match Read(Read(bs).rest)
      case Got(value, end) => ReadEntries(bs, length, fields)
          == ReadEntries(end, length - 1, With(fields, NameOf(Read(bs).value).value, value))
      case Malformed => ReadEntries(bs, length, fields) == Malformed
      case Outside => ReadEntries(bs, length, fields) == Outside
  {
  }

  lemma ArrayBody(bs: Bytes, length: nat)
    ensures match ReadItems(bs, length)
            case Got(items, rest) => ReadBody(KArr, bs, length) == Got(Arr(items), rest)
            case Malformed => ReadBody(KArr, bs, length) == Malformed
            case Outside => ReadBody(KArr, bs, length) == Outside
  {
    assert ReadBody(KArr, bs, length) == ArrayIn(bs, length);
  }

  lemma MapBody(bs: Bytes, length: nat)
    ensures match ReadEntries(bs, length, map[])
            case Got(fields, rest) => ReadBody(KMap, bs, length) == Got(Obj(fields), rest)
            case Malformed => ReadBody(KMap, bs, length) == Malformed
            case Outside => ReadBody(KMap, bs, length) == Outside
  {
    assert ReadBody(KMap, bs, length) == MapIn(bs, length);
  }

  class Reader {
    const bytes: Bytes
    var offset: nat

    constructor (bytes: Bytes)
      ensures this.bytes == bytes && offset == 0
    {
      this.bytes := bytes;
      offset := 0;
    }

    predicate Valid()
      reads this
    {
      offset <= |bytes|
    }

    function Rest(): Bytes
      requires Valid()
      reads this
    {
      bytes[offset..]
    }

    method Take(length: nat) returns (start: Option<nat>)
      requires Valid()
      modifies this
      ensures Valid()
      ensures start == if length <= |old(Rest())| then Some(old(offset)) else None
      ensures offset == if start.Some? then old(offset) + length else old(offset)
    {
      if offset + length > |bytes| {
        return None;
      }
      start := Some(offset);
      offset := offset + length;
    }

    /** `getUint8`, `getUint16`, `getUint32` or `getBigUint64` of what is taken. */
    method ReadUnsigned(k: nat) returns (o: Outcome<nat>)
      requires Valid()
      modifies this
      ensures Valid() && old(offset) <= offset
      ensures Ends(o, ReadNumber(old(Rest()), k), Rest())
    {
      var start := Take(k);
      if start.None? {
        return Throws;
      }
      assert bytes[start.value..][..k] == bytes[start.value..start.value + k];
      assert bytes[start.value..][k..] == bytes[offset..];
      o := Done(BigEndian(bytes[start.value..start.value + k]));
    }

    method ReadInteger(k: nat, signed: bool) returns (o: Outcome<Value>)
      requires Valid()
      modifies this
      ensures Valid() && old(offset) <= offset
      ensures Ends(o, ReadInt(old(Rest()), k, signed), Rest())
    {
      var n := ReadUnsigned(k);
      if !n.Done? {
        return Throws;
      }
      var number := if signed then Signed(n.value, k) else n.value;
      o := if -MAX_EXACT <= number <= MAX_EXACT then Done(Int(number)) else Beyond;
    }

    method ReadString(length: nat) returns (o: Outcome<Value>)
      requires Valid()
      modifies this
      ensures Valid() && old(offset) <= offset
      ensures Ends(o, ReadBody(KStr, old(Rest()), length), Rest())
    {
      var start := Take(length);
      if start.None? {
        return Throws;
      }
      assert bytes[start.value..][..length] == bytes[start.value..start.value + length];
      assert bytes[start.value..][length..] == bytes[offset..];
      o := Done(Str(bytes[start.value..start.value + length]));
    }

    method ReadBin(length: nat) returns (o: Outcome<Value>)
      requires Valid()
      modifies this
      ensures Valid() && old(offset) <= offset
      ensures Ends(o, ReadBody(KBin, old(Rest()), length), Rest())
    {
      var start := Take(length);
      if start.None? {
        return Throws;
      }
      assert bytes[start.value..][..length] == bytes[start.value..start.value + length];
      assert bytes[start.value..][length..] == bytes[offset..];
      o := Done(Bin(bytes[start.value..start.value + length]));
    }

    method ReadArray(length: nat) returns (o: Outcome<Value>)
      requires Valid()
      modifies this
      ensures Valid() && old(offset) <= offset
      ensures Ends(o, ReadBody(KArr, old(Rest()), length), Rest())
      decreases |bytes| - offset, 1
    {
      var out := [];
      NoItems(ReadItems(Rest(), length));
      ArrayBody(Rest(), length);
      for i := 0 to length
        invariant Valid() && old(offset) <= offset
        invariant After(out, ReadItems(Rest(), length - i)) == ReadItems(old(Rest()), length)
      {
        OneItem(out, Rest(), length - i);
        var item := ReadValue();
        if !item.Done? {
          return if item.Throws? then Throws else Beyond;
        }
        out := out + [item.value];
      }
      assert out + [] == out;
      o := Done(Arr(out));
    }

    method ReadMap(length: nat) returns (o: Outcome<Value>)
      requires Valid()
      modifies this
      ensures Valid() && old(offset) <= offset
      ensures Ends(o, ReadBody(KMap, old(Rest()), length), Rest())
      decreases |bytes| - offset, 1
    {
      var out := map[];
      MapBody(Rest(), length);
      hide Read, ReadBody, NameOf;
      for i := 0 to length
        invariant Valid() && old(offset) <= offset
        invariant ReadEntries(Rest(), length - i, out) == ReadEntries(old(Rest()), length, map[])
      {
        OneEntry(Rest(), length - i, out);
        var key := ReadValue();
        if !key.Done? {
          return if key.Throws? then Throws else Beyond;
        }
        var name := NameOf(key.value);
        if name.None? {
          return Throws;
        }
        var value := ReadValue();
        if !value.Done? {
          return if value.Throws? then Throws else Beyond;
        }
        if name.value == PROTO {
          continue;
        }
        out := out[name.value := value.value];
      }
      o := Done(Obj(out));
    }

    method ReadSequence(kind: Kind, length: nat) returns (o: Outcome<Value>)
      requires Valid()
      modifies this
      ensures Valid() && old(offset) <= offset
      ensures Ends(o, ReadBody(kind, old(Rest()), length), Rest())
      decreases |bytes| - offset, 2
    {
      match kind
      case KStr => o := ReadString(length);
      case KBin => o := ReadBin(length);
      case KArr => o := ReadArray(length);
      case KMap => o := ReadMap(length);
    }

    method ReadLengthed(kind: Kind, k: nat) returns (o: Outcome<Value>)
      requires Valid()
      modifies this
      ensures Valid() && old(offset) <= offset
      ensures Ends(o, ReadSized(kind, old(Rest()), k), Rest())
      decreases |bytes| - offset, 3
    {
      var length := ReadUnsigned(k);
      if !length.Done? {
        return Throws;
      }
      o := ReadSequence(kind, length.value);
    }

    method ReadValue() returns (o: Outcome<Value>)
      requires Valid()
      modifies this
      ensures Valid() && old(offset) <= offset && (o.Done? ==> old(offset) < offset)
      ensures Ends(o, Read(old(Rest())), Rest())
      decreases |bytes| - offset, 0
    {
      var start := Take(1);
      if start.None? {
        return Throws;
      }
      var byte: int := bytes[start.value];
      assert Read(old(Rest())) == ReadTagged(byte, Rest());
      if byte <= 0x7f {
        o := Done(Int(byte));
      } else if byte <= 0x8f {
        o := ReadSequence(KMap, byte - 0x80);
      } else if byte <= 0x9f {
        o := ReadSequence(KArr, byte - 0x90);
      } else if byte <= 0xbf {
        o := ReadSequence(KStr, byte - 0xa0);
      } else if byte >= 0xe0 {
        o := Done(Int(byte - 0x100));
      } else {
        match byte
        case 0xc0 => o := Done(Nil);
        case 0xc2 => o := Done(Bool(false));
        case 0xc3 => o := Done(Bool(true));
        case 0xc4 => o := ReadLengthed(KBin, 1);
        case 0xc5 => o := ReadLengthed(KBin, 2);
        case 0xc6 => o := ReadLengthed(KBin, 4);
        case 0xcc => o := ReadInteger(1, false);
        case 0xcd => o := ReadInteger(2, false);
        case 0xce => o := ReadInteger(4, false);
        case 0xcf => o := ReadInteger(8, false);
        case 0xd0 => o := ReadInteger(1, true);
        case 0xd1 => o := ReadInteger(2, true);
        case 0xd2 => o := ReadInteger(4, true);
        case 0xd3 => o := ReadInteger(8, true);
        case 0xd9 => o := ReadLengthed(KStr, 1);
        case 0xda => o := ReadLengthed(KStr, 2);
        case 0xdb => o := ReadLengthed(KStr, 4);
        case 0xdc => o := ReadLengthed(KArr, 2);
        case 0xdd => o := ReadLengthed(KArr, 4);
        case 0xde => o := ReadLengthed(KMap, 2);
        case 0xdf => o := ReadLengthed(KMap, 4);
        case 0xc1 => o := Throws;
        case _ => o := Beyond;
      }
    }
  }

  method DecodeMsgpack(bytes: Bytes) returns (o: Outcome<Value>)
    ensures Ends(o, Decoded(bytes), [])
  {
    var reader := new Reader(bytes);
    o := reader.ReadValue();
    if o.Done? && reader.offset != |bytes| {
      o := Throws;
    }
  }

  // --- Frames ---

  /** The first byte that is not JSON white space opens an object or an array. */
  predicate IsJson(bytes: Bytes) {
    exists i :: 0 <= i < |bytes| && bytes[i] in {0x7b, 0x5b} && forall j :: 0 <= j < i ==>
        bytes[j] in {0x20, 0x09, 0x0a, 0x0d}
  }

  method IsJsonText(bytes: Bytes) returns (json: bool)
    ensures json <==> IsJson(bytes)
  {
    for i := 0 to |bytes|
      invariant forall j :: 0 <= j < i ==> bytes[j] in {0x20, 0x09, 0x0a, 0x0d}
    {
      var byte := bytes[i];
      if byte == 0x20 || byte == 0x09 || byte == 0x0a || byte == 0x0d {
        continue;
      }
      return byte == 0x7b || byte == 0x5b;
    }
    json := false;
  }

  /** A binary frame is JSON text or MessagePack. */
  datatype Frame = Json(text: Bytes) | Packed(outcome: Outcome<Value>)

  method DecodeRealtimeFrame(bytes: Bytes) returns (frame: Frame)
    ensures IsJson(bytes) ==> frame == Json(bytes)
    ensures !IsJson(bytes) ==> frame.Packed? && Ends(frame.outcome, Decoded(bytes), [])
  {
    var json := IsJsonText(bytes);
    if json {
      return Json(bytes);
    }
    var outcome := DecodeMsgpack(bytes);
    frame := Packed(outcome);
  }

  /** Of all encodings, only the integers 123 and 91 in one byte are taken for JSON: never an array or a map. */
  lemma TakenForJson(e: Enc)
    requires Legal(e)
    ensures IsJson(Encoded(e)) <==> e == EInt(0x7b, Fix) || e == EInt(0x5b, Fix)
  {
    var bs := Encoded(e);
    if e.EInt? && e.form.Fix? {
      assert bs == [if e.n < 0 then e.n + 0x100 else e.n];
      if e.n == 0x7b || e.n == 0x5b {
        assert bs[0] in {0x7b, 0x5b};
      }
    } else {
      assert bs[0] >= 0x80;
    }
  }
}
