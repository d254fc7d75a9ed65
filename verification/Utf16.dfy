/**
 * JavaScript strings as sequences of UTF-16 code units, the order MongoDB gives them (by code
 * point) and the re-encoding that makes IndexedDB's order (by code unit) the same one.
 */
module Utf16 {
  type Unit = u: int | 0 <= u < 0x1_0000
  type Text = seq<Unit>

  function Sign(n: int): int {
    if n < 0 then -1 else if n > 0 then 1 else 0
  }

  predicate IsHigh(u: int) { 0xD800 <= u < 0xDC00 }

  predicate IsLow(u: int) { 0xDC00 <= u < 0xE000 }

  predicate PairAt(s: Text) {
    |s| > 1 && IsHigh(s[0]) && IsLow(s[1])
  }

  /** Section 2.1 of RFC 2781: the code point a surrogate pair stands for. */
  function Joined(high: int, low: int): int {
    0x1_0000 + (high - 0xD800) * 0x400 + (low - 0xDC00)
  }

  /** What the string iterator yields: pairs joined, a lone surrogate on its own. */
  function CodePoints(s: Text): seq<int> {
    if s == [] then []
    else if PairAt(s) then [Joined(s[0], s[1])] + CodePoints(s[2..])
    else [s[0]] + CodePoints(s[1..])
  }

  predicate WellFormed(s: Text) {
    s == [] ||
    if PairAt(s) then WellFormed(s[2..])
    else !IsHigh(s[0]) && !IsLow(s[0]) && WellFormed(s[1..])
  }

  /** Lexicographic order, a proper prefix first. */
  function SeqOrder(x: seq<int>, y: seq<int>): int {
    if x == [] || y == [] then Sign(|x| - |y|)
    else if x[0] != y[0] then Sign(x[0] - y[0])
    else SeqOrder(x[1..], y[1..])
  }

  function StringOrder(a: Text, b: Text): int {
    SeqOrder(CodePoints(a), CodePoints(b))
  }

  /** The iterator loop computes the code-point order. */
  method CompareStrings(a: Text, b: Text) returns (order: int)
    ensures order == StringOrder(a, b)
  {
    if a == b {
      SeqOrderZero(CodePoints(a), CodePoints(b));
      return 0;
    }
    var i, j := 0, 0;
    while i < |a| && j < |b|
      invariant i <= |a| && j <= |b|
      invariant StringOrder(a, b) == SeqOrder(CodePoints(a[i..]), CodePoints(b[j..]))
    {
      ghost var u, v := a[i..], b[j..];
      assert PairAt(u) ==> u[2..] == a[i + 2..];
      assert PairAt(v) ==> v[2..] == b[j + 2..];
      assert u[1..] == a[i + 1..] && v[1..] == b[j + 1..];
      var x, nextI := CodePointAt(a, i);
      var y, nextJ := CodePointAt(b, j);
      if x != y {
        return if x < y then -1 else 1;
      }
      i, j := nextI, nextJ;
    }
    CodePointsEmpty(a[i..]);
    CodePointsEmpty(b[j..]);
    return if i == |a| && j == |b| then 0 else if i == |a| then -1 else 1;
  }

  /** One step of the iterator: the code point at `i` and where the next one starts. */
  method CodePointAt(s: Text, i: nat) returns (point: int, next: nat)
    requires i < |s|
    ensures i < next <= |s|
    ensures CodePoints(s[i..]) == [point] + CodePoints(s[next..])
  {
    if i + 1 < |s| && IsHigh(s[i]) && IsLow(s[i + 1]) {
      assert s[i..][2..] == s[i + 2..];
      return Joined(s[i], s[i + 1]), i + 2;
    }
    assert s[i..][1..] == s[i + 1..];
    return s[i], i + 1;
  }

  lemma CodePointsEmpty(s: Text)
    ensures CodePoints(s) == [] <==> s == []
  {
  }

  // --- What is decoded, and how it is ordered ---

  /** A Unicode scalar value. */
  predicate IsScalar(p: int) { 0 <= p < 0xD800 || 0xE000 <= p < 0x11_0000 }

  /** UTF-16 of scalar values, as section 2.1 of RFC 2781 encodes them. */
  function Encoded(points: seq<int>): Text
    requires forall p <- points :: IsScalar(p)
  {
    if points == [] then []
    else
      var p := points[0];
      assert p in points;
      UnitsOf(p) + Encoded(points[1..])
  }

  function UnitsOf(p: int): Text
    requires IsScalar(p)
  {
    if p < 0x1_0000 then [p as Unit]
    else [(0xD800 + (p - 0x1_0000) / 0x400) as Unit, (0xDC00 + (p - 0x1_0000) % 0x400) as Unit]
  }

  /** The iterator gives back the characters a text was encoded from; such texts are the well-formed ones. */
  lemma {:induction false} EncodedReads(points: seq<int>)
    requires forall p <- points :: IsScalar(p)
    ensures CodePoints(Encoded(points)) == points && WellFormed(Encoded(points))
    decreases |points|
  {
    if points != [] {
      var p, rest, s := points[0], Encoded(points[1..]), Encoded(points);
      EncodedReads(points[1..]);
      assert points[0] in points;
      if p < 0x1_0000 {
        assert s == [p] + rest && s[1..] == rest && !PairAt(s);
      } else {
        assert s[2..] == rest && PairAt(s) && Joined(s[0], s[1]) == p;
      }
    }
  }

  lemma {:induction false} WellFormedIsEncoded(s: Text)
    requires WellFormed(s)
    ensures (forall p <- CodePoints(s) :: IsScalar(p)) && Encoded(CodePoints(s)) == s
    decreases |s|
  {
    if s != [] {
      var n := if PairAt(s) then 2 else 1;
      var p, rest := CodePoints(s)[0], CodePoints(s)[1..];
      assert CodePoints(s) == [p] + CodePoints(s[n..]) && rest == CodePoints(s[n..]);
      WellFormedIsEncoded(s[n..]);
      assert IsScalar(p) && UnitsOf(p) == s[..n];
      assert s == s[..n] + s[n..];
      hide CodePoints, UnitsOf, IsScalar;
    }
  }

  /** The first difference decides; a text comes before what it is the beginning of. */
  lemma {:induction false} FirstDifference(same: seq<int>, x: int, xs: seq<int>, y: int, ys: seq<int>)
    ensures x < y ==> SeqOrder(same + [x] + xs, same + [y] + ys) < 0
    ensures SeqOrder(same, same + [x] + xs) < 0
    decreases |same|
  {
    if same != [] {
      FirstDifference(same[1..], x, xs, y, ys);
      assert (same + [x] + xs)[1..] == same[1..] + [x] + xs;
      assert (same + [y] + ys)[1..] == same[1..] + [y] + ys;
    }
  }

  // --- The order is total ---

  lemma SeqOrderZero(x: seq<int>, y: seq<int>)
    ensures SeqOrder(x, y) == 0 <==> x == y
  {
    if x != [] && y != [] {
      SeqOrderZero(x[1..], y[1..]);
      assert x == [x[0]] + x[1..] && y == [y[0]] + y[1..];
    }
  }

  lemma SeqOrderFlips(x: seq<int>, y: seq<int>)
    ensures SeqOrder(x, y) == -SeqOrder(y, x)
  {
  }

  lemma SeqOrderTransitive(x: seq<int>, y: seq<int>, z: seq<int>)
    requires SeqOrder(x, y) < 0 && SeqOrder(y, z) < 0
    ensures SeqOrder(x, z) < 0
  {
    if x != [] && y != [] && z != [] && x[0] == y[0] == z[0] {
      SeqOrderTransitive(x[1..], y[1..], z[1..]);
    }
  }

  /** Decoding loses nothing, even around lone surrogates. */
  lemma {:induction false} CodePointsInjective(a: Text, b: Text)
    requires CodePoints(a) == CodePoints(b)
    ensures a == b
    decreases |a|
  {
    CodePointsEmpty(a);
    CodePointsEmpty(b);
    if a == [] {
    } else {
      var p, q := CodePoints(a), CodePoints(b);
      assert p[0] == q[0] && p[1..] == q[1..];
      if PairAt(a) {
        assert PairAt(b);
        CodePointsInjective(a[2..], b[2..]);
        assert a == [a[0], a[1]] + a[2..] && b == [b[0], b[1]] + b[2..];
      } else {
        assert !PairAt(b);
        CodePointsInjective(a[1..], b[1..]);
        assert a == [a[0]] + a[1..] && b == [b[0]] + b[1..];
      }
    }
  }

  lemma StringOrderTotal(a: Text, b: Text)
    ensures StringOrder(a, b) == 0 <==> a == b
    ensures StringOrder(a, b) == -StringOrder(b, a)
  {
    SeqOrderZero(CodePoints(a), CodePoints(b));
    SeqOrderFlips(CodePoints(a), CodePoints(b));
    if CodePoints(a) == CodePoints(b) {
      CodePointsInjective(a, b);
    }
  }

  lemma StringOrderTransitive(a: Text, b: Text, c: Text)
    requires StringOrder(a, b) < 0 && StringOrder(b, c) < 0
    ensures StringOrder(a, c) < 0
  {
    SeqOrderTransitive(CodePoints(a), CodePoints(b), CodePoints(c));
  }

  // --- Index keys: units moved so that unit order is code-point order ---

  function Moved(u: Unit): Unit {
    if u >= 0xE000 then u - 0x800 else if u >= 0xD800 then u + 0x2000 else u
  }

  function Rekeyed(s: Text): Text {
    if s == [] then [] else [Moved(s[0])] + Rekeyed(s[1..])
  }

  method CodePointOrder(value: Text) returns (out: Text)
    ensures out == Rekeyed(value)
  {
    out := [];
    for i := 0 to |value|
      invariant out + Rekeyed(value[i..]) == Rekeyed(value)
    {
      out := out + [Moved(value[i])];
      assert value[i..][1..] == value[i + 1..];
    }
  }

  /** On well-formed strings, unit order of the re-encoded strings is code-point order. */
  lemma {:induction false} RekeyedOrder(a: Text, b: Text)
    requires WellFormed(a) && WellFormed(b)
    ensures SeqOrder(Rekeyed(a), Rekeyed(b)) == StringOrder(a, b)
    decreases |a|
  {
    CodePointsEmpty(a);
    CodePointsEmpty(b);
    if a != [] && b != [] {
      if PairAt(a) && PairAt(b) {
        RekeyedPair(a);
        RekeyedPair(b);
        RekeyedOrder(a[2..], b[2..]);
      } else if !PairAt(a) && !PairAt(b) {
        RekeyedOrder(a[1..], b[1..]);
      }
    }
  }

  lemma RekeyedPair(s: Text)
    requires PairAt(s)
    ensures Rekeyed(s) == [Moved(s[0]), Moved(s[1])] + Rekeyed(s[2..])
  {
    assert s[1..][1..] == s[2..];
  }

  /** A string with a lone surrogate is misplaced next to the same string cut there and ended with U+E000. */
  lemma {:induction false} LoneSurrogateMisplaced(a: Text) returns (b: Text)
    requires !WellFormed(a)
    ensures WellFormed(b) && StringOrder(a, b) < 0 < SeqOrder(Rekeyed(a), Rekeyed(b))
    decreases |a|
  {
    if PairAt(a) {
      var rest := LoneSurrogateMisplaced(a[2..]);
      b := [a[0], a[1]] + rest;
      assert b[2..] == rest;
      RekeyedPair(a);
      RekeyedPair(b);
    } else if !IsHigh(a[0]) && !IsLow(a[0]) {
      var rest := LoneSurrogateMisplaced(a[1..]);
      b := [a[0]] + rest;
      assert b[1..] == rest;
    } else {
      b := [0xE000];
      assert CodePoints(a)[0] == a[0];
    }
  }

  /**
   * The key of a string sorts among the keys of all well-formed strings as the string does exactly when it is
   * well-formed.
   */
  lemma RekeyedOrderNeedsWellFormed(a: Text)
    ensures WellFormed(a) <==> forall b :: WellFormed(b) ==> SeqOrder(Rekeyed(a), Rekeyed(b)) == StringOrder(a, b)
  {
    if WellFormed(a) {
      forall b | WellFormed(b)
        ensures SeqOrder(Rekeyed(a), Rekeyed(b)) == StringOrder(a, b)
      {
        RekeyedOrder(a, b);
      }
    } else {
      var b := LoneSurrogateMisplaced(a);
    }
  }
}
