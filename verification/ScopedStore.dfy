/** Key-value scopes inside one owner's sorted store (AgentKV.ts, AgentPersistenceDrizzle.ts). */
module ScopedStore {
  import opened Basics
  import opened OrderedStore

  type Value = string

  datatype Row = Row(key: Key, value: Value)

  /** Rows in strictly rising key order. */
  predicate Sorted(rows: seq<Row>) {
    forall i, j :: 0 <= i < j < |rows| ==> Less(rows[i].key, rows[j].key)
  }

  function Upsert(rows: seq<Row>, key: Key, value: Value): seq<Row> {
    if rows == [] then [Row(key, value)]
    else if rows[0].key == key then [Row(key, value)] + rows[1..]
    else if Less(key, rows[0].key) then [Row(key, value)] + rows
    else [rows[0]] + Upsert(rows[1..], key, value)
  }

  function Without(rows: seq<Row>, key: Key): seq<Row> {
    if rows == [] then [] else (if rows[0].key == key then [] else [rows[0]]) + Without(rows[1..], key)
  }

  function Under(rows: seq<Row>, prefix: Key): seq<Row> {
    if rows == [] then [] else (if prefix <= rows[0].key then [rows[0]] else []) + Under(rows[1..], prefix)
  }

  function Outside(rows: seq<Row>, prefix: Key): seq<Row> {
    if rows == [] then [] else (if prefix <= rows[0].key then [] else [rows[0]]) + Outside(rows[1..], prefix)
  }

  function Lookup(rows: seq<Row>, key: Key): Option<Value> {
    if rows == [] then None else if rows[0].key == key then Some(rows[0].value) else Lookup(rows[1..], key)
  }

  // ----- The store -----

  lemma {:induction false} UpsertKeys(rows: seq<Row>, key: Key, value: Value, r: Row)
    ensures r in Upsert(rows, key, value) ==> r == Row(key, value) || r in rows
  {
    if rows != [] { UpsertKeys(rows[1..], key, value, r); }
  }

  lemma {:induction false} UpsertSorted(rows: seq<Row>, key: Key, value: Value)
    requires Sorted(rows)
    ensures Sorted(Upsert(rows, key, value))
  {
    if rows != [] {
      var out := Upsert(rows, key, value);
      LessIsTotal(key, rows[0].key);
      if Less(key, rows[0].key) {
        forall j | 0 <= j < |rows| ensures Less(key, rows[j].key) {
          if j > 0 { LessIsTransitive(key, rows[0].key, rows[j].key); }
        }
      } else if rows[0].key != key {
        UpsertSorted(rows[1..], key, value);
        forall j | 1 <= j < |out| ensures Less(rows[0].key, out[j].key) {
          UpsertKeys(rows[1..], key, value, out[j]);
          if out[j] in rows[1..] { var k :| 0 <= k < |rows[1..]| && rows[1..][k] == out[j]; }
        }
      }
    }
  }

  /** A write replaces exactly the value of its own key. */
  lemma {:induction false} UpsertLooksUp(rows: seq<Row>, key: Key, value: Value, other: Key)
    requires Sorted(rows)
    ensures Lookup(Upsert(rows, key, value), other) == if other == key then Some(value) else Lookup(rows, other)
  {
    if rows != [] {
      LessIsTotal(key, rows[0].key);
      if rows[0].key == key {
        assert ([Row(key, value)] + rows[1..])[1..] == rows[1..];
      } else if Less(key, rows[0].key) {
        assert ([Row(key, value)] + rows)[1..] == rows;
      } else {
        UpsertLooksUp(rows[1..], key, value, other);
        assert ([rows[0]] + Upsert(rows[1..], key, value))[1..] == Upsert(rows[1..], key, value);
      }
    }
  }

  /** Deleting a key leaves every other as it is. */
  lemma {:induction false} WithoutLooksUp(rows: seq<Row>, key: Key, other: Key)
    requires Sorted(rows)
    ensures Lookup(Without(rows, key), other) == if other == key then None else Lookup(rows, other)
  {
    if rows != [] {
      WithoutLooksUp(rows[1..], key, other);
      var rest := Without(rows[1..], key);
      assert [] + rest == rest && ([rows[0]] + rest)[1..] == rest;
    }
  }

  lemma {:induction false} FirstIsLeast(rows: seq<Row>)
    requires Sorted(rows) && rows != []
    ensures Sorted(rows[1..]) && forall r :: r in rows[1..] ==> Less(rows[0].key, r.key)
  {
    forall r | r in rows[1..] ensures Less(rows[0].key, r.key) {
      var k :| 0 <= k < |rows[1..]| && rows[1..][k] == r;
      assert rows[k + 1] == r;
    }
  }

  lemma {:induction false} SortedCons(first: Row, rest: seq<Row>)
    requires Sorted(rest) && forall r :: r in rest ==> Less(first.key, r.key)
    ensures Sorted([first] + rest)
  {
    hide Less;
    assert forall i :: 0 <= i < |rest| ==> rest[i] in rest;
  }

  /** The rows under a prefix are exactly the rows that start with it, in key order. */
  lemma {:induction false} UnderIs(rows: seq<Row>, prefix: Key)
    requires Sorted(rows)
    ensures Sorted(Under(rows, prefix))
    ensures forall r :: r in Under(rows, prefix) <==> r in rows && prefix <= r.key
  {
    hide Less;
    if rows != [] {
      FirstIsLeast(rows);
      UnderIs(rows[1..], prefix);
      SortedCons(rows[0], Under(rows[1..], prefix));
    }
  }

  /** The rows left when a scope is cleared are exactly the others, in key order. */
  lemma {:induction false} OutsideIs(rows: seq<Row>, prefix: Key)
    requires Sorted(rows)
    ensures Sorted(Outside(rows, prefix))
    ensures forall r :: r in Outside(rows, prefix) <==> r in rows && !(prefix <= r.key)
  {
    hide Less;
    if rows != [] {
      FirstIsLeast(rows);
      OutsideIs(rows[1..], prefix);
      SortedCons(rows[0], Outside(rows[1..], prefix));
    }
  }

  class Persistence {
    var rows: seq<Row>

    constructor ()
      ensures rows == []
    {
      rows := [];
    }

    /** Every row whose key starts with the prefix, in key order, found through the key range. */
    method ReadValues(prefix: Key) returns (found: seq<Row>)
      requires forall i :: 0 <= i < |rows| ==> WellFormed(rows[i].key)
      ensures found == Under(rows, prefix)
    {
      var upper := PrefixSuccessor(prefix);
      found := [];
      for i := 0 to |rows|
        invariant found + Under(rows[i..], prefix) == Under(rows, prefix)
      {
        assert rows[i..][0] == rows[i] && rows[i..][1..] == rows[i + 1..];
        RangeIsPrefix(rows[i].key, prefix);
        if !Less(rows[i].key, prefix) && (upper.None? || Less(rows[i].key, upper.value))
           && prefix <= rows[i].key {
          found := found + [rows[i]];
        }
      }
    }

    method WriteValue(key: Key, value: Value)
      modifies this
      ensures rows == Upsert(old(rows), key, value)
    {
      rows := Upsert(rows, key, value);
    }

    method DeleteValue(key: Key)
      modifies this
      ensures rows == Without(old(rows), key)
    {
      rows := Without(rows, key);
    }
  }

  // ----- Scopes -----

  const DOT: Point := 0x2E
  const PERCENT: Point := 0x25

  function EscapePoint(p: Point): Key {
    if p == PERCENT then [0x25, 0x32, 0x35] else if p == DOT then [0x25, 0x32, 0x45] else [p]
  }

  function Escape(segment: Key): Key {
    if segment == [] then [] else EscapePoint(segment[0]) + Escape(segment[1..])
  }

  function Joined(segments: seq<Key>): Key {
    if segments == [] then []
    else if |segments| == 1 then Escape(segments[0])
    else Escape(segments[0]) + [DOT] + Joined(segments[1..])
  }

  /** The key prefix of a scope narrowed by `segments`. */
  function Scoped(prefix: Key, segments: seq<Key>): Key {
    prefix + Joined(segments) + [DOT]
  }

  class AgentKV {
    const persistence: Persistence
    const prefix: Key

    constructor (persistence: Persistence, prefix: Key)
      ensures this.persistence == persistence && this.prefix == prefix
    {
      this.persistence, this.prefix := persistence, prefix;
    }

    method Narrowed(segments: seq<Key>) returns (kv: AgentKV)
      ensures fresh(kv) && kv.persistence == persistence && kv.prefix == Scoped(prefix, segments)
    {
      kv := new AgentKV(persistence, Scoped(prefix, segments));
    }

    method Read(key: Key) returns (value: Option<Value>)
      requires forall i :: 0 <= i < |persistence.rows| ==> WellFormed(persistence.rows[i].key)
      ensures value == Lookup(persistence.rows, prefix + key)
    {
      var entries := persistence.ReadValues(prefix + key);
      LookupUnder(persistence.rows, prefix + key);
      var i := 0;
      while i < |entries|
        invariant 0 <= i <= |entries|
        invariant Lookup(entries[i..], prefix + key) == Lookup(entries, prefix + key)
      {
        assert entries[i..][0] == entries[i] && entries[i..][1..] == entries[i + 1..];
        if entries[i].key == prefix + key {
          return Some(entries[i].value);
        }
        i := i + 1;
      }
      return None;
    }

    method Write(key: Key, value: Value)
      modifies persistence
      ensures persistence.rows == Upsert(old(persistence.rows), prefix + key, value)
    {
      persistence.WriteValue(prefix + key, value);
    }

    /** Empties the scope and the scopes within it, and leaves every other row alone. */
    method Clear()
      requires forall i :: 0 <= i < |persistence.rows| ==> WellFormed(persistence.rows[i].key)
      modifies persistence
      ensures persistence.rows == Outside(old(persistence.rows), prefix)
    {
      var entries := persistence.ReadValues(prefix);
      ghost var before := persistence.rows;
      var i := 0;
      while i < |entries|
        invariant 0 <= i <= |entries|
        invariant persistence.rows == WithoutAll(before, entries[..i])
      {
        assert entries[..i + 1] == entries[..i] + [entries[i]];
        WithoutAllSnoc(before, entries[..i], entries[i]);
        persistence.DeleteValue(entries[i].key);
        i := i + 1;
      }
      assert entries[..i] == entries;
      ClearedIsOutside(before, prefix);
    }
  }

  lemma {:induction false} LookupUnder(rows: seq<Row>, key: Key)
    ensures Lookup(Under(rows, key), key) == Lookup(rows, key)
  {
    if rows != [] {
      LookupUnder(rows[1..], key);
      if key <= rows[0].key {
        assert ([rows[0]] + Under(rows[1..], key))[1..] == Under(rows[1..], key);
      } else {
        assert [] + Under(rows[1..], key) == Under(rows[1..], key);
      }
    }
  }

  function WithoutAll(rows: seq<Row>, gone: seq<Row>): seq<Row>
    decreases |gone|
  {
    if gone == [] then rows else WithoutAll(Without(rows, gone[0].key), gone[1..])
  }

  lemma {:induction false} WithoutAllSnoc(rows: seq<Row>, gone: seq<Row>, last: Row)
    ensures WithoutAll(rows, gone + [last]) == Without(WithoutAll(rows, gone), last.key)
    decreases |gone|
  {
    if gone == [] {
      assert [] + [last] == [last] && [last][1..] == [];
    } else {
      assert (gone + [last])[1..] == gone[1..] + [last];
      WithoutAllSnoc(Without(rows, gone[0].key), gone[1..], last);
    }
  }

  predicate Gone(k: Key, gone: seq<Row>) { exists j :: 0 <= j < |gone| && gone[j].key == k }

  function NotGone(rows: seq<Row>, gone: seq<Row>): seq<Row> {
    if rows == [] then [] else (if Gone(rows[0].key, gone) then [] else [rows[0]]) + NotGone(rows[1..], gone)
  }

  lemma {:induction false} WithoutThenNotGone(rows: seq<Row>, gone: seq<Row>)
    requires gone != []
    ensures NotGone(Without(rows, gone[0].key), gone[1..]) == NotGone(rows, gone)
  {
    if rows != [] {
      var key := rows[0].key;
      var rest := Without(rows[1..], gone[0].key);
      WithoutThenNotGone(rows[1..], gone);
      assert key == gone[0].key || Gone(key, gone[1..]) <==> Gone(key, gone) by { GoneCons(key, gone); }
      if key == gone[0].key {
        assert Without(rows, gone[0].key) == rest;
      } else {
        assert Without(rows, gone[0].key) == [rows[0]] + rest;
        assert ([rows[0]] + rest)[1..] == rest;
      }
    }
  }

  lemma {:induction false} GoneCons(key: Key, gone: seq<Row>)
    requires gone != []
    ensures Gone(key, gone) <==> key == gone[0].key || Gone(key, gone[1..])
  {
    if Gone(key, gone[1..]) {
      var j :| 0 <= j < |gone[1..]| && gone[1..][j].key == key;
      assert gone[j + 1].key == key;
    }
    if Gone(key, gone) && key != gone[0].key {
      var j :| 0 <= j < |gone| && gone[j].key == key;
      assert gone[1..][j - 1].key == key;
    }
  }

  lemma {:induction false} WithoutAllIsNotGone(rows: seq<Row>, gone: seq<Row>)
    ensures WithoutAll(rows, gone) == NotGone(rows, gone)
    decreases |gone|
  {
    if gone == [] {
      NothingGone(rows);
    } else {
      WithoutAllIsNotGone(Without(rows, gone[0].key), gone[1..]);
      WithoutThenNotGone(rows, gone);
    }
  }

  lemma {:induction false} NothingGone(rows: seq<Row>)
    ensures NotGone(rows, []) == rows
  {
    if rows != [] { NothingGone(rows[1..]); }
  }

  lemma {:induction false} UnderMembers(rows: seq<Row>, prefix: Key, r: Row)
    ensures r in Under(rows, prefix) <==> r in rows && prefix <= r.key
  {
    if rows != [] { UnderMembers(rows[1..], prefix, r); }
  }

  lemma {:induction false} NotGoneIsOutside(rows: seq<Row>, gone: seq<Row>, prefix: Key)
    requires forall i :: 0 <= i < |rows| ==> (Gone(rows[i].key, gone) <==> prefix <= rows[i].key)
    ensures NotGone(rows, gone) == Outside(rows, prefix)
  {
    if rows != [] {
      forall i | 0 <= i < |rows[1..]| ensures Gone(rows[1..][i].key, gone) <==> prefix <= rows[1..][i].key {
        assert rows[1..][i] == rows[i + 1];
      }
      NotGoneIsOutside(rows[1..], gone, prefix);
    }
  }

  lemma {:induction false} ClearedIsOutside(rows: seq<Row>, prefix: Key)
    ensures WithoutAll(rows, Under(rows, prefix)) == Outside(rows, prefix)
  {
    var gone := Under(rows, prefix);
    forall i | 0 <= i < |rows| ensures Gone(rows[i].key, gone) <==> prefix <= rows[i].key {
      UnderMembers(rows, prefix, rows[i]);
      if prefix <= rows[i].key {
        var j :| 0 <= j < |gone| && gone[j] == rows[i];
      }
      if Gone(rows[i].key, gone) {
        var j :| 0 <= j < |gone| && gone[j].key == rows[i].key;
        UnderMembers(rows, prefix, gone[j]);
      }
    }
    NotGoneIsOutside(rows, gone, prefix);
    WithoutAllIsNotGone(rows, gone);
  }

  // ----- Scopes do not overlap -----

  /** Every segment escaped and ended by a dot. */
  function Ended(segments: seq<Key>): Key {
    if segments == [] then [] else Escape(segments[0]) + [DOT] + Ended(segments[1..])
  }

  lemma {:induction false} ScopedIsEnded(prefix: Key, segments: seq<Key>)
    requires segments != []
    ensures Scoped(prefix, segments) == prefix + Ended(segments)
  {
    JoinedIsEnded(segments);
    assert prefix + Joined(segments) + [DOT] == prefix + (Joined(segments) + [DOT]);
  }

  lemma {:induction false} JoinedIsEnded(segments: seq<Key>)
    requires segments != []
    ensures Joined(segments) + [DOT] == Ended(segments)
  {
    if |segments| == 1 {
      assert Ended(segments[1..]) == [];
    } else {
      JoinedIsEnded(segments[1..]);
      assert Escape(segments[0]) + [DOT] + Joined(segments[1..]) + [DOT]
          == Escape(segments[0]) + [DOT] + (Joined(segments[1..]) + [DOT]);
    }
  }

  lemma {:induction false} EscapedHasNoDot(segment: Key)
    ensures DOT !in Escape(segment)
  {
    if segment != [] { EscapedHasNoDot(segment[1..]); }
  }

  lemma {:induction false} PointsArePrefixFree(p: Point, u: Key, q: Point, v: Key)
    requires EscapePoint(p) + u == EscapePoint(q) + v
    ensures p == q && u == v
  {
    var x, y := EscapePoint(p), EscapePoint(q);
    assert (x + u)[0] == x[0] && (y + v)[0] == y[0];
    assert x[0] == PERCENT ==> (x + u)[2] == x[2];
    assert y[0] == PERCENT ==> (y + v)[2] == y[2];
    assert (x + u)[|x|..] == u && (y + v)[|y|..] == v;
  }

  /** Different segments stay different. */
  lemma {:induction false} EscapeIsInjective(a: Key, b: Key)
    requires Escape(a) == Escape(b)
    ensures a == b
  {
    if a == [] || b == [] {
      assert a != [] ==> Escape(a) != [];
      assert b != [] ==> Escape(b) != [];
    } else {
      PointsArePrefixFree(a[0], Escape(a[1..]), b[0], Escape(b[1..]));
      EscapeIsInjective(a[1..], b[1..]);
      assert a == [a[0]] + a[1..] && b == [b[0]] + b[1..];
    }
  }

  lemma {:induction false} SplitAtDot(x: Key, y: Key, u: Key, v: Key)
    requires DOT !in x && DOT !in y
    ensures x + [DOT] + u <= y + [DOT] + v <==> x == y && u <= v
  {
    var s, t := x + [DOT] + u, y + [DOT] + v;
    if x == [] && y == [] {
      assert s == [DOT] + u && t == [DOT] + v;
      ConsPrefixes(DOT, u, DOT, v);
    } else if x == [] {
      assert s[0] == DOT && t[0] == y[0] && y[0] in y;
    } else if y == [] {
      assert t[0] == DOT && s[0] == x[0] && x[0] in x;
    } else {
      assert s == [x[0]] + (x[1..] + [DOT] + u) && t == [y[0]] + (y[1..] + [DOT] + v);
      ConsPrefixes(x[0], x[1..] + [DOT] + u, y[0], y[1..] + [DOT] + v);
      SplitAtDot(x[1..], y[1..], u, v);
      assert x == [x[0]] + x[1..] && y == [y[0]] + y[1..];
    }
  }

  lemma {:induction false} ConsPrefixes(p: Point, u: Key, q: Point, v: Key)
    ensures [p] + u <= [q] + v <==> p == q && u <= v
  {
    if [p] + u <= [q] + v {
      assert ([p] + u)[0] == ([q] + v)[0];
      assert forall i :: 0 <= i < |u| ==> u[i] == ([p] + u)[i + 1] == ([q] + v)[i + 1] == v[i];
    }
  }

  lemma {:induction false} EndedIsPrefixCode(a: seq<Key>, b: seq<Key>)
    ensures Ended(a) <= Ended(b) <==> a <= b
  {
    if a != [] && b != [] {
      EscapedHasNoDot(a[0]);
      EscapedHasNoDot(b[0]);
      SplitAtDot(Escape(a[0]), Escape(b[0]), Ended(a[1..]), Ended(b[1..]));
      EndedIsPrefixCode(a[1..], b[1..]);
      if Escape(a[0]) == Escape(b[0]) { EscapeIsInjective(a[0], b[0]); }
      assert a == [a[0]] + a[1..] && b == [b[0]] + b[1..];
      if a <= b { assert a[0] == b[0] && a[1..] <= b[1..]; }
    }
  }

  /** The list that names the same scope and is not empty: no segment is written like one empty segment. */
  function Normal(segments: seq<Key>): (n: seq<Key>)
    ensures n != []
  {
    if segments == [] then [[]] else segments
  }

  lemma {:induction false} ScopedIsNormal(prefix: Key, segments: seq<Key>)
    ensures Scoped(prefix, segments) == prefix + Ended(Normal(segments))
  {
    ScopedIsEnded(prefix, Normal(segments));
    assert Joined([[]]) == Escape([]) == Joined([]);
  }

  lemma {:induction false} AfterPrefix(prefix: Key, u: Key, v: Key)
    ensures prefix + u <= prefix + v <==> u <= v
  {
    var s, t := prefix + u, prefix + v;
    assert s[|prefix|..] == u && t[|prefix|..] == v;
    if u <= v { assert t[..|s|] == s; }
    if s <= t { assert t[..|s|][|prefix|..] == v[..|u|]; }
  }

  /** One scope's keys lie inside another's exactly when its segments extend the other's, the empty list
      counting as one empty segment. */
  lemma {:induction false} ScopesArePrefixCode(prefix: Key, a: seq<Key>, b: seq<Key>)
    ensures Scoped(prefix, a) <= Scoped(prefix, b) <==> Normal(a) <= Normal(b)
  {
    ScopedIsNormal(prefix, a);
    ScopedIsNormal(prefix, b);
    EndedIsPrefixCode(Normal(a), Normal(b));
    AfterPrefix(prefix, Ended(Normal(a)), Ended(Normal(b)));
  }

  /** Different segment lists name different scopes, except for the empty list and the list of one empty
      segment, which name the same. */
  lemma {:induction false} ScopesCoincideIff(prefix: Key, a: seq<Key>, b: seq<Key>)
    ensures Scoped(prefix, a) == Scoped(prefix, b) <==> a == b || {a, b} == {[], [[]]}
  {
    ScopesArePrefixCode(prefix, a, b);
    ScopesArePrefixCode(prefix, b, a);
    assert {a, b} == {[], [[]]} ==> a in {[], [[]]} && b in {[], [[]]};
    assert Normal(a) == Normal(b) && a != b ==> (a == [] && b == [[]]) || (b == [] && a == [[]]);
  }

  /** Narrowing twice is narrowing by the joined list exactly when neither list is empty. */
  lemma {:induction false} NarrowingComposesIff(prefix: Key, a: seq<Key>, b: seq<Key>)
    ensures Scoped(Scoped(prefix, a), b) == Scoped(prefix, Normal(a) + Normal(b))
    ensures Scoped(Scoped(prefix, a), b) == Scoped(prefix, a + b) <==> a != [] && b != []
  {
    ScopedIsNormal(prefix, a);
    ScopedIsNormal(Scoped(prefix, a), b);
    ScopedIsNormal(prefix, Normal(a) + Normal(b));
    EndedConcat(Normal(a), Normal(b));
    Associative(prefix, Ended(Normal(a)), Ended(Normal(b)));
    ScopesCoincideIff(prefix, Normal(a) + Normal(b), a + b);
    assert |Normal(a) + Normal(b)| >= 2;
    assert {Normal(a) + Normal(b), a + b} != {[], [[]]} by { assert Normal(a) + Normal(b) !in {[], [[]]}; }
  }

  lemma {:induction false} EndedConcat(a: seq<Key>, b: seq<Key>)
    ensures Ended(a + b) == Ended(a) + Ended(b)
  {
    if a == [] {
      assert a + b == b;
    } else {
      EndedConcat(a[1..], b);
      assert (a + b)[0] == a[0] && (a + b)[1..] == a[1..] + b;
      Associative(Escape(a[0]) + [DOT], Ended(a[1..]), Ended(b));
    }
  }

  lemma {:induction false} ClearedLookup(rows: seq<Row>, prefix: Key, key: Key)
    ensures Lookup(Outside(rows, prefix), key) == if prefix <= key then None else Lookup(rows, key)
  {
    if rows != [] {
      ClearedLookup(rows[1..], prefix, key);
      if !(prefix <= rows[0].key) {
        assert ([rows[0]] + Outside(rows[1..], prefix))[1..] == Outside(rows[1..], prefix);
      } else {
        assert [] + Outside(rows[1..], prefix) == Outside(rows[1..], prefix);
      }
    }
  }

  lemma {:induction false} PrefixesCompare(s: Key, t: Key, k: Key)
    ensures s <= t + k ==> s <= t || t <= s
  {
    if s <= t + k {
      if |s| <= |t| {
        assert t[..|s|] == (t + k)[..|s|] == s;
      } else {
        assert s[..|t|] == (t + k)[..|t|] == t;
      }
    }
  }

  /** Scopes whose segment lists do not extend one another share no key, and clearing one of them removes
      nothing from the other and everything from itself. */
  lemma {:induction false} SiblingsAreApart(rows: seq<Row>, prefix: Key, a: seq<Key>, b: seq<Key>, j: Key, k: Key)
    requires !(Normal(a) <= Normal(b)) && !(Normal(b) <= Normal(a))
    ensures Scoped(prefix, a) + j != Scoped(prefix, b) + k
    ensures Lookup(Outside(rows, Scoped(prefix, a)), Scoped(prefix, b) + k) == Lookup(rows, Scoped(prefix, b) + k)
    ensures Lookup(Outside(rows, Scoped(prefix, a)), Scoped(prefix, a) + j) == None
  {
    var s, t := Scoped(prefix, a), Scoped(prefix, b);
    ScopesArePrefixCode(prefix, a, b);
    ScopesArePrefixCode(prefix, b, a);
    PrefixesCompare(s, t, k);
    assert s <= s + j;
    ClearedLookup(rows, s, t + k);
    ClearedLookup(rows, s, s + j);
  }
}
