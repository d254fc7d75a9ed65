/** Sequences as a query hands them out: reversed, limited, cut in windows. */
module Lists {
  function Max(a: int, b: int): int { if a > b then a else b }

  function Min(a: int, b: int): int { if a < b then a else b }

  function Reverse<T>(rows: seq<T>): (r: seq<T>)
    ensures |r| == |rows|
  {
    if rows == [] then [] else Reverse(rows[1..]) + [rows[0]]
  }

  function Limit<T>(rows: seq<T>, limit: nat): seq<T> {
    if |rows| > limit then rows[..limit] else rows
  }

  lemma {:induction false} ReverseConcat<T>(a: seq<T>, b: seq<T>)
    ensures Reverse(a + b) == Reverse(b) + Reverse(a)
    decreases |a|
  {
    if a == [] {
      assert a + b == b;
    } else {
      assert (a + b)[1..] == a[1..] + b;
      ReverseConcat(a[1..], b);
    }
  }

  lemma {:induction false} ReverseIndexes<T>(a: seq<T>)
    ensures forall i :: 0 <= i < |a| ==> Reverse(a)[i] == a[|a| - 1 - i]
    decreases |a|
  {
    if a != [] {
      ReverseIndexes(a[1..]);
    }
  }

  lemma {:induction false} ReverseMultiset<T>(a: seq<T>)
    ensures multiset(Reverse(a)) == multiset(a)
    decreases |a|
  {
    if a != [] {
      ReverseMultiset(a[1..]);
      assert a == [a[0]] + a[1..];
    }
  }

  lemma {:induction false} ReverseTwice<T>(a: seq<T>)
    ensures Reverse(Reverse(a)) == a
    decreases |a|
  {
    if a != [] {
      ReverseConcat(Reverse(a[1..]), [a[0]]);
      ReverseTwice(a[1..]);
      assert Reverse([a[0]]) == [a[0]];
    }
  }

  /** A window of a sequence. */
  function Cut<T>(rows: seq<T>, from: nat, to: nat): seq<T>
    requires from <= to <= |rows|
  {
    rows[from..to]
  }

  lemma CutIs<T>(rows: seq<T>, from: nat, to: nat)
    requires from <= to <= |rows|
    ensures |Cut(rows, from, to)| == to - from
    ensures from < to ==> Cut(rows, from, to)[0] == rows[from] && Cut(rows, from, to)[to - from - 1] == rows[to - 1]
    ensures from == 0 && to == |rows| ==> Cut(rows, from, to) == rows
  {
  }

  lemma CutTail<T>(rows: seq<T>, from: nat, to: nat)
    requires from <= to <= |rows| && rows != []
    ensures from > 0 ==> Cut(rows, from, to) == Cut(rows[1..], from - 1, to - 1)
    ensures from == 0 && to > 0 ==> Cut(rows, from, to) == [rows[0]] + Cut(rows[1..], 0, to - 1)
    ensures from == to ==> Cut(rows, from, to) == []
  {
  }

  lemma Joined<T>(rows: seq<T>, i: nat, j: nat, k: nat)
    requires i <= j <= k <= |rows|
    ensures Cut(rows, i, j) + Cut(rows, j, k) == Cut(rows, i, k)
  {
  }

  /** The last rows before position `to`: fetched in reverse order, flipped back. */
  lemma LastBefore<T>(rows: seq<T>, to: nat, limit: nat)
    requires to <= |rows|
    ensures Reverse(Limit(Reverse(Cut(rows, 0, to)), limit)) == Cut(rows, Max(0, to - limit), to)
  {
    var from := Max(0, to - limit);
    Joined(rows, 0, from, to);
    CutIs(rows, 0, from);
    CutIs(rows, from, to);
    hide Cut;
    LastOf(Cut(rows, 0, to), Cut(rows, 0, from), Cut(rows, from, to), limit);
  }

  lemma LastOf<T>(rows: seq<T>, a: seq<T>, b: seq<T>, limit: nat)
    requires rows == a + b && |b| <= limit && (a == [] || |b| == limit)
    ensures Reverse(Limit(Reverse(rows), limit)) == b
  {
    ReverseConcat(a, b);
    ReverseTwice(b);
    if a == [] { NothingReversed(a); }
    hide Reverse;
    FirstOnes(Reverse(b), Reverse(a), limit);
  }

  lemma NothingReversed<T>(a: seq<T>)
    requires a == []
    ensures Reverse(a) == []
  {
  }

  lemma FirstOnes<T>(a: seq<T>, b: seq<T>, limit: nat)
    requires |a| <= limit && (b == [] || |a| == limit)
    ensures Limit(a + b, limit) == a
  {
    if b == [] { assert a + b == a; }
  }

  /** The first rows from position `from` on. */
  lemma FirstFrom<T>(rows: seq<T>, from: nat, limit: nat)
    requires from <= |rows|
    ensures Limit(Cut(rows, from, |rows|), limit) == Cut(rows, from, Min(from + limit, |rows|))
  {
  }

  /** One row over the limit tells whether there are more; the page is the rest. */
  lemma OneOver<T>(rows: seq<T>, limit: nat)
    ensures var fetched := Limit(rows, limit + 1);
            && (|fetched| > limit <==> |rows| > limit)
            && (if |fetched| > limit then Limit(fetched, limit) else fetched) == Limit(rows, limit)
            && |Limit(rows, limit)| == Min(|rows|, limit)
  {
  }
}
