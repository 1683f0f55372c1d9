/**
 * An owner's key-value rows in key order, and the key range that finds the rows under a prefix
 * (AgentPersistenceDrizzle.ts). Keys are lists of code points; the database compares UTF-8 text bytewise,
 * which for well-formed text is code point order.
 */
module OrderedStore {
  import opened Basics

  type Point = n: int | 0 <= n <= 0x10FFFF

  type Key = seq<Point>

  predicate Surrogate(p: Point) { 0xD800 <= p <= 0xDFFF }

  /** A string the database can hold: no lone surrogate. */
  predicate WellFormed(k: Key) { forall i :: 0 <= i < |k| ==> !Surrogate(k[i]) }

  predicate Less(a: Key, b: Key) {
    if b == [] then false
    else if a == [] then true
    else a[0] < b[0] || (a[0] == b[0] && Less(a[1..], b[1..]))
  }

  lemma {:induction false} LessIsTotal(a: Key, b: Key)
    ensures Less(a, b) || a == b || Less(b, a)
    ensures !(Less(a, b) && Less(b, a)) && !(Less(a, b) && a == b)
  {
    if a != [] && b != [] {
      LessIsTotal(a[1..], b[1..]);
      assert a == [a[0]] + a[1..] && b == [b[0]] + b[1..];
    }
  }

  lemma {:induction false} LessIsTransitive(a: Key, b: Key, c: Key)
    requires Less(a, b) && Less(b, c)
    ensures Less(a, c)
  {
    if a != [] && a[0] == b[0] == c[0] {
      LessIsTransitive(a[1..], b[1..], c[1..]);
    }
  }

  lemma {:induction false} LessAfterPrefix(p: Key, a: Key, b: Key)
    ensures Less(p + a, p + b) <==> Less(a, b)
  {
    if p == [] {
      assert p + a == a && p + b == b;
    } else {
      assert (p + a)[1..] == p[1..] + a && (p + b)[1..] == p[1..] + b;
      LessAfterPrefix(p[1..], a, b);
    }
  }

  // ----- UTF-8 -----

  /** The UTF-8 bytes of one code point (section 3 of RFC 3629). */
  function Utf8(p: Point): seq<int> {
    if p < 0x80 then [p]
    else if p < 0x800 then [0xC0 + p / 64, 0x80 + p % 64]
    else if p < 0x10000 then [0xE0 + p / 4096, 0x80 + p / 64 % 64, 0x80 + p % 64]
    else [0xF0 + p / 262144, 0x80 + p / 4096 % 64, 0x80 + p / 64 % 64, 0x80 + p % 64]
  }

  function Utf8Text(k: Key): seq<int> {
    if k == [] then [] else Utf8(k[0]) + Utf8Text(k[1..])
  }

  predicate BytesLess(a: seq<int>, b: seq<int>) {
    if b == [] then false
    else if a == [] then true
    else a[0] < b[0] || (a[0] == b[0] && BytesLess(a[1..], b[1..]))
  }

  predicate FirstDiffer(a: seq<int>, b: seq<int>, i: nat) {
    i < |a| && i < |b| && a[..i] == b[..i] && a[i] < b[i]
  }

  /** Numbers compare as their base-64 digits do. */
  lemma {:induction false} DigitsCompare(p: nat, q: nat)
    requires p < q
    ensures p / 64 < q / 64 || (p / 64 == q / 64 && p % 64 < q % 64)
    ensures p / 64 / 64 == p / 4096 && q / 64 / 64 == q / 4096
  {
  }

  lemma {:induction false} TwoBytes(p: Point, q: Point) returns (i: nat)
    requires 0x80 <= p < q < 0x800
    ensures FirstDiffer(Utf8(p), Utf8(q), i)
  {
    DigitsCompare(p, q);
    i := if p / 64 < q / 64 then 0 else 1;
    assert Utf8(p)[..1] == [0xC0 + p / 64] && Utf8(q)[..1] == [0xC0 + q / 64];
  }

  lemma {:induction false} ThreeBytes(p: Point, q: Point) returns (i: nat)
    requires 0x800 <= p < q < 0x10000
    ensures FirstDiffer(Utf8(p), Utf8(q), i)
  {
    DigitsCompare(p, q);
    if p / 64 == q / 64 {
      i := 2;
      assert Utf8(p)[..2] == [0xE0 + p / 4096, 0x80 + p / 64 % 64];
      assert Utf8(q)[..2] == [0xE0 + q / 4096, 0x80 + q / 64 % 64];
    } else {
      DigitsCompare(p / 64, q / 64);
      i := if p / 4096 < q / 4096 then 0 else 1;
      assert Utf8(p)[..1] == [0xE0 + p / 4096] && Utf8(q)[..1] == [0xE0 + q / 4096];
    }
  }

  lemma {:induction false} FourBytes(p: Point, q: Point) returns (i: nat)
    requires 0x10000 <= p < q
    ensures FirstDiffer(Utf8(p), Utf8(q), i)
  {
    DigitsCompare(p, q);
    assert p / 4096 / 64 == p / 262144 && q / 4096 / 64 == q / 262144;
    var a, b := Utf8(p), Utf8(q);
    if p / 64 == q / 64 {
      i := 3;
      assert a[..3] == [0xF0 + p / 262144, 0x80 + p / 4096 % 64, 0x80 + p / 64 % 64];
      assert b[..3] == [0xF0 + q / 262144, 0x80 + q / 4096 % 64, 0x80 + q / 64 % 64];
    } else {
      DigitsCompare(p / 64, q / 64);
      if p / 4096 == q / 4096 {
        i := 2;
        assert a[..2] == [0xF0 + p / 262144, 0x80 + p / 4096 % 64];
        assert b[..2] == [0xF0 + q / 262144, 0x80 + q / 4096 % 64];
      } else {
        DigitsCompare(p / 4096, q / 4096);
        i := if p / 262144 < q / 262144 then 0 else 1;
        assert a[..1] == [0xF0 + p / 262144] && b[..1] == [0xF0 + q / 262144];
      }
    }
  }

  /** The bytes of a smaller code point differ first at a smaller byte. */
  lemma {:induction false} Utf8FirstDifference(p: Point, q: Point) returns (i: nat)
    requires p < q
    ensures FirstDiffer(Utf8(p), Utf8(q), i)
  {
    if 0x80 <= p && q < 0x800 {
      i := TwoBytes(p, q);
    } else if 0x800 <= p && q < 0x10000 {
      i := ThreeBytes(p, q);
    } else if 0x10000 <= p {
      i := FourBytes(p, q);
    } else {
      i := 0;
    }
  }

  lemma {:induction false} DifferAt(a: seq<int>, b: seq<int>, i: nat)
    requires i < |a| && i < |b| && a[..i] == b[..i] && a[i] < b[i]
    ensures BytesLess(a, b) && !BytesLess(b, a)
  {
    if i > 0 {
      assert a[0] == a[..i][0] == b[..i][0] == b[0];
      assert a[1..][..i - 1] == a[..i][1..] == b[..i][1..] == b[1..][..i - 1];
      DifferAt(a[1..], b[1..], i - 1);
    }
  }

  lemma {:induction false} BytesAfterPrefix(p: seq<int>, a: seq<int>, b: seq<int>)
    ensures BytesLess(p + a, p + b) <==> BytesLess(a, b)
  {
    if p == [] {
      assert p + a == a && p + b == b;
    } else {
      assert (p + a)[1..] == p[1..] + a && (p + b)[1..] == p[1..] + b;
      BytesAfterPrefix(p[1..], a, b);
    }
  }

  /** Comparing texts byte by byte is comparing them code point by code point. */
  lemma {:induction false} BytewiseIsPointwise(a: Key, b: Key)
    ensures BytesLess(Utf8Text(a), Utf8Text(b)) <==> Less(a, b)
  {
    if a != [] && b != [] {
      var s, t := Utf8Text(a), Utf8Text(b);
      if a[0] == b[0] {
        BytesAfterPrefix(Utf8(a[0]), Utf8Text(a[1..]), Utf8Text(b[1..]));
        BytewiseIsPointwise(a[1..], b[1..]);
      } else if a[0] < b[0] {
        var i := Utf8FirstDifference(a[0], b[0]);
        assert s[..i] == Utf8(a[0])[..i] && t[..i] == Utf8(b[0])[..i];
        DifferAt(s, t, i);
      } else {
        var i := Utf8FirstDifference(b[0], a[0]);
        assert s[..i] == Utf8(a[0])[..i] && t[..i] == Utf8(b[0])[..i];
        DifferAt(t, s, i);
      }
    } else {
      assert a != [] ==> Utf8Text(a) != [];
      assert b != [] ==> Utf8Text(b) != [];
    }
  }

  // ----- The successor of a prefix -----

  const LAST_POINT: Point := 0x10FFFF

  function TrimLast(k: Key): (r: Key)
    ensures r != [] ==> r[|r| - 1] != LAST_POINT
  {
    if k != [] && k[|k| - 1] == LAST_POINT then TrimLast(k[..|k| - 1]) else k
  }

  /** The least text above every text that starts with `prefix`, if there is one. */
  function Successor(prefix: Key): Option<Key> {
    var points := TrimLast(prefix);
    if points == [] || Surrogate(points[|points| - 1]) then None
    else
      var last := points[|points| - 1];
      Some(points[..|points| - 1] + [if last == 0xD7FF then 0xE000 else last + 1])
  }

  method PrefixSuccessor(prefix: Key) returns (successor: Option<Key>)
    ensures successor == Successor(prefix)
  {
    var points := prefix;
    while |points| > 0 && points[|points| - 1] == LAST_POINT
      invariant TrimLast(points) == TrimLast(prefix)
      decreases |points|
    {
      points := points[..|points| - 1];
    }
    if |points| == 0 {
      return None;
    }
    var last := points[|points| - 1];
    points := points[..|points| - 1];
    if Surrogate(last) {
      return None;
    }
    var next: Point := if last == 0xD7FF then 0xE000 else last + 1;
    return Some(points + [next]);
  }

  predicate InRange(k: Key, prefix: Key) {
    !Less(k, prefix) && (Successor(prefix).Some? ==> Less(k, Successor(prefix).value))
  }

  lemma {:induction false} PrefixIsNotLess(p: Key, k: Key)
    requires p <= k
    ensures !Less(k, p)
  {
    if p != [] {
      assert p[0] == k[0] && p[1..] <= k[1..];
      PrefixIsNotLess(p[1..], k[1..]);
    }
  }

  /** Only text that starts with the largest code points comes after them. */
  lemma {:induction false} AboveLast(p: Key, k: Key)
    requires forall i :: 0 <= i < |p| ==> p[i] == LAST_POINT
    requires !Less(k, p)
    ensures p <= k
  {
    if p != [] {
      AboveLast(p[1..], k[1..]);
      assert p == [p[0]] + p[1..] && k == [k[0]] + k[1..];
    }
  }

  lemma {:induction false} TrimLastForm(k: Key)
    ensures TrimLast(k) <= k
    ensures forall i :: |TrimLast(k)| <= i < |k| ==> k[i] == LAST_POINT
    ensures TrimLast(k) != [] ==> TrimLast(k)[|TrimLast(k)| - 1] != LAST_POINT
  {
    if k != [] && k[|k| - 1] == LAST_POINT { TrimLastForm(k[..|k| - 1]); }
  }

  /** What lies from `front + [c] + tail` up to `front + [next]`, when nothing well formed is in between and
      `tail` is all largest code points, starts with `front + [c] + tail`. */
  lemma {:induction false} BetweenStarts(front: Key, c: Point, next: Point, tail: Key, k: Key)
    requires c < next && (forall q: Point :: c < q < next ==> Surrogate(q))
    requires forall i :: 0 <= i < |tail| ==> tail[i] == LAST_POINT
    requires WellFormed(k)
    ensures (!Less(k, front + [c] + tail) && Less(k, front + [next])) <==> front + [c] + tail <= k
  {
    var p := front + [c] + tail;
    if front == [] {
      assert p == [c] + tail && front + [next] == [next];
      assert p[1..] == tail && [next][1..] == [];
      if k != [] && k[0] == c {
        if !Less(k, p) {
          AboveLast(tail, k[1..]);
          assert k == [c] + k[1..];
        }
        if p <= k {
          PrefixIsNotLess(p, k);
        }
      }
    } else {
      assert p[1..] == front[1..] + [c] + tail && (front + [next])[1..] == front[1..] + [next];
      if k != [] && k[0] == front[0] {
        BetweenStarts(front[1..], c, next, tail, k[1..]);
        assert p == [p[0]] + p[1..] && k == [k[0]] + k[1..];
      }
    }
  }

  /** For stored text, lying in the range of a prefix is the same as starting with it; only a prefix whose
      last code point before any U+10FFFF is a lone surrogate has no upper bound, and then the range may
      hold more. */
  lemma {:induction false} RangeIsPrefix(k: Key, prefix: Key)
    requires WellFormed(k)
    ensures prefix <= k ==> InRange(k, prefix)
    ensures WellFormed(prefix) && InRange(k, prefix) ==> prefix <= k
  {
    var points := TrimLast(prefix);
    TrimLastForm(prefix);
    if prefix <= k {
      assert WellFormed(prefix);
    }
    if points == [] {
      if !Less(k, prefix) { AboveLast(prefix, k); }
      if prefix <= k { PrefixIsNotLess(prefix, k); }
    } else if WellFormed(prefix) {
      var front, c, tail := points[..|points| - 1], points[|points| - 1], prefix[|points|..];
      assert prefix == points + tail && points == front + [c];
      assert !Surrogate(c) by { assert c == prefix[|points| - 1]; }
      var next: Point := if c == 0xD7FF then 0xE000 else c + 1;
      BetweenStarts(front, c, next, tail, k);
    }
  }
}
