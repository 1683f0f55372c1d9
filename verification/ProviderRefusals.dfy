/**
 * Which contexts are refused because a base ID would stand for two provider IDs, read off the context and the
 * previous map alone (`baseContextMessages` of AgentProviderContext.ts).
 */
module ProviderRefusals {
  import opened Basics
  import opened ProviderContext
  import opened ProviderMapper
  import opened ProviderPairing

  // ----- What a use of a provider ID takes up, by counting -----

  function Calls(uses: seq<Use>, c: string): nat {
    if uses == [] then 0
    else Calls(uses[..|uses| - 1], c) + if uses[|uses| - 1] == Use(true, c) then 1 else 0
  }

  /** Calls of `c` whose results have not come yet. */
  function Waiting(uses: seq<Use>, c: string): nat {
    if uses == [] then 0
    else
      var n := Waiting(uses[..|uses| - 1], c);
      if uses[|uses| - 1] == Use(true, c) then n + 1
      else if uses[|uses| - 1] == Use(false, c) && n > 0 then n - 1
      else n
  }

  /** Results of `c` that came when no call was waiting for one. */
  function Loose(uses: seq<Use>, c: string): nat {
    if uses == [] then 0
    else
      var front := uses[..|uses| - 1];
      Loose(front, c) + if uses[|uses| - 1] == Use(false, c) && Waiting(front, c) == 0 then 1 else 0
  }

  predicate Matched(uses: seq<Use>, j: nat)
    requires j < |uses|
  {
    !uses[j].call && Waiting(uses[..j], uses[j].callId) > 0
  }

  /** The earlier base ID that use `j` takes up: the n-th call, or the n-th loose result, of a provider ID takes
      the n-th base ID it had before, if there were that many. */
  function Takes(previous: Ids, uses: seq<Use>, j: nat): Option<string>
    requires j < |uses|
  {
    var c := uses[j].callId;
    var known := Named(previous.order, previous.names, c);
    var n := if uses[j].call then Calls(uses[..j], c) else Loose(uses[..j], c);
    if Matched(uses, j) || n >= |known| then None else Some(known[n])
  }

  /** Use `k` is of a provider ID that may stay as it is, has no base ID to take up, and finds its own not taken
      up by an earlier use. */
  predicate Keeps(previous: Ids, uses: seq<Use>, keeps: string -> bool, k: nat)
    requires k < |uses|
  {
    && keeps(uses[k].callId) && !Matched(uses, k) && Takes(previous, uses, k) == None
    && forall l :: 0 <= l < k ==> Takes(previous, uses, l) != Some(uses[k].callId)
  }

  /** Use `k` keeps its provider ID as its base ID, and the later use `j` takes that ID up for another provider
      ID, which it stood for before. */
  predicate Conflict(previous: Ids, uses: seq<Use>, keeps: string -> bool, k: nat, j: nat) {
    && k < j < |uses| && Keeps(previous, uses, keeps, k)
    && Takes(previous, uses, j) == Some(uses[k].callId) && uses[j].callId != uses[k].callId
  }

  // ----- The queues hold what counting says -----

  function Rest(ids: seq<string>, n: nat): seq<string> { if n <= |ids| then ids[n..] else [] }

  predicate CountedFor(s: State, previous: Ids, uses: seq<Use>, c: string) {
    var known := Named(previous.order, previous.names, c);
    && Queue(s.callIds, c) == Rest(known, Calls(uses, c))
    && Queue(s.resultIds, c) == Rest(known, Loose(uses, c))
    && |Queue(s.awaiting, c)| == Waiting(uses, c)
  }

  ghost predicate Counted(s: State, previous: Ids, uses: seq<Use>) {
    forall c :: CountedFor(s, previous, uses, c)
  }

  lemma {:induction false} BeginCounted(previous: Ids, supply: seq<string>)
    ensures Counted(Begin(previous, supply), previous, [])
  {
    forall c ensures CountedFor(Begin(previous, supply), previous, [], c) {
      QueuesAreNamed(previous.order, previous.names, c);
    }
  }

  lemma {:induction false} RestNext(ids: seq<string>, n: nat)
    ensures Rest(ids, n) != [] ==> n < |ids| && Rest(ids, n)[0] == ids[n] && Rest(ids, n)[1..] == Rest(ids, n + 1)
    ensures Rest(ids, n) == [] ==> n >= |ids| && Rest(ids, n + 1) == []
  {
  }

  lemma {:induction false} ResultQueue(s: State, u: Use, keeps: string -> bool, c: string)
    requires Identify(s, u, keeps).Ok?
    ensures var t := Identify(s, u, keeps).value.0;
            if u == Use(false, c) && Queue(s.awaiting, c) == [] && Queue(s.resultIds, c) != []
            then Queue(t.resultIds, c) == Queue(s.resultIds, c)[1..]
            else Queue(t.resultIds, c) == Queue(s.resultIds, c)
    ensures u == Use(false, c) && Queue(s.awaiting, c) == [] ==>
              Queue(Identify(s, u, keeps).value.0.awaiting, c) == []
  {
  }

  lemma {:induction false} CountSnoc(uses: seq<Use>, u: Use, c: string)
    ensures Calls(uses + [u], c) == Calls(uses, c) + if u == Use(true, c) then 1 else 0
    ensures Waiting(uses + [u], c)
         == if u == Use(true, c) then Waiting(uses, c) + 1
            else if u == Use(false, c) && Waiting(uses, c) > 0 then Waiting(uses, c) - 1 else Waiting(uses, c)
    ensures Loose(uses + [u], c) == Loose(uses, c) + if u == Use(false, c) && Waiting(uses, c) == 0 then 1 else 0
  {
    assert (uses + [u])[..|uses|] == uses;
  }

  lemma {:induction false} IdentifyCounted(s: State, u: Use, keeps: string -> bool, previous: Ids, uses: seq<Use>)
    requires Counted(s, previous, uses) && Identify(s, u, keeps).Ok?
    ensures Counted(Identify(s, u, keeps).value.0, previous, uses + [u])
  {
    var t := Identify(s, u, keeps).value.0;
    forall c ensures CountedFor(t, previous, uses + [u], c) {
      assert CountedFor(s, previous, uses, c);
      CountStep(s, u, keeps, previous, uses, c);
    }
  }

  lemma {:induction false} CountStep(s: State, u: Use, keeps: string -> bool, previous: Ids, uses: seq<Use>, c: string)
    requires CountedFor(s, previous, uses, c) && Identify(s, u, keeps).Ok?
    ensures CountedFor(Identify(s, u, keeps).value.0, previous, uses + [u], c)
  {
    hide Identify;
    hide Rest;
    var known := Named(previous.order, previous.names, c);
    IdentifyQueues(s, u, keeps, c);
    ResultQueue(s, u, keeps, c);
    CountSnoc(uses, u, c);
    RestNext(known, Calls(uses, c));
    RestNext(known, Loose(uses, c));
    var (t, id) := Identify(s, u, keeps).value;
    if u == Use(true, c) && Queue(s.callIds, c) != [] {
      assert ([id] + Queue(t.callIds, c))[1..] == Queue(t.callIds, c);
    }
  }

  /** What the queues let a use take up is what counting says. */
  lemma {:induction false} ReusedIsTaken(s: State, previous: Ids, uses: seq<Use>, j: nat)
    requires j < |uses| && Counted(s, previous, uses[..j])
    ensures Reused(s, uses[j]) == Takes(previous, uses, j)
    ensures Matched(uses, j) <==> !uses[j].call && Queue(s.awaiting, uses[j].callId) != []
  {
    var c := uses[j].callId;
    var known := Named(previous.order, previous.names, c);
    assert CountedFor(s, previous, uses[..j], c);
    RestNext(known, Calls(uses[..j], c));
    RestNext(known, Loose(uses[..j], c));
  }

  // ----- Where the IDs given to the uses come from -----

  ghost predicate Origin(previous: Ids, uses: seq<Use>, keeps: string -> bool, i: nat, x: string)
    requires i < |uses|
  {
    exists k :: 0 <= k <= i && uses[k].callId == uses[i].callId
                && (Takes(previous, uses, k) == Some(x) || (Keeps(previous, uses, keeps, k) && uses[k].callId == x))
  }

  /** Of the IDs given so far: the known ones were taken up or kept, what is to be taken up was, and what waits
      for a result was given to a call of that provider ID. */
  ghost predicate Explained(s: State, previous: Ids, uses: seq<Use>, keeps: string -> bool, ids: seq<string>) {
    && |ids| <= |uses|
    && (forall i :: 0 <= i < |ids| && ids[i] in previous.names ==> Origin(previous, uses, keeps, i, ids[i]))
    && (forall i :: 0 <= i < |ids| && Takes(previous, uses, i).Some? ==> Takes(previous, uses, i) == Some(ids[i]))
    && (forall c, k :: c in s.awaiting && 0 <= k < |s.awaiting[c]| ==> GivenTo(uses, ids, s.awaiting[c][k], c))
    && (forall k :: 0 <= k < |s.supply| ==> s.supply[k] !in previous.names)
  }

  predicate GivenTo(uses: seq<Use>, ids: seq<string>, id: string, c: string)
    requires |ids| <= |uses|
  {
    exists i :: 0 <= i < |ids| && ids[i] == id && uses[i].callId == c
  }

  /** A known ID that was kept has been given to a use it did not stand for. */
  ghost predicate Misused(previous: Ids, uses: seq<Use>, ids: seq<string>, x: string)
    requires |ids| <= |uses|
  {
    x in previous.names && exists i :: 0 <= i < |ids| && ids[i] == x && uses[i].callId != previous.names[x]
  }

  ghost predicate KeptAreMisused(previous: Ids, uses: seq<Use>, keeps: string -> bool, ids: seq<string>)
    requires |ids| <= |uses|
  {
    forall k :: 0 <= k < |ids| && Keeps(previous, uses, keeps, k) && Foreign(previous, uses[k].callId) ==>
      Misused(previous, uses, ids, uses[k].callId)
  }

  /** A base ID known for another provider ID than the one that looks like it. */
  predicate Foreign(previous: Ids, x: string) { x in previous.names && previous.names[x] != x }

  /** The ways a use comes by its ID. */
  lemma {:induction false} HowChosen(s: State, u: Use, keeps: string -> bool)
    requires Choose(s, u, keeps).Ok?
    ensures var (t, id) := Choose(s, u, keeps).value;
            var matched := !u.call && Queue(s.awaiting, u.callId) != [];
            && t.ids == s.ids
            && (matched ==> id == s.awaiting[u.callId][0] && Reused(s, u) == None)
            && (Reused(s, u).Some? ==> Reused(s, u) == Some(id))
            && (!matched && Reused(s, u) == None ==>
                  if keeps(u.callId) && u.callId !in s.ids.names then id == u.callId
                  else id in s.supply)
            && (forall k :: 0 <= k < |t.supply| ==> t.supply[k] in s.supply)
            && t.awaiting == if matched then s.awaiting[u.callId := s.awaiting[u.callId][1..]] else s.awaiting
  {
    FirstNewIsRest(s.supply, s.ids.names);
  }

  lemma {:induction false} FirstNewIsRest(supply: seq<string>, names: map<string, string>)
    ensures var r := FirstNew(supply, names);
            r.Some? ==> forall k :: 0 <= k < |r.value| ==> r.value[k] in supply
  {
    if supply != [] && supply[0] in names { FirstNewIsRest(supply[1..], names); }
  }

  /** Everything known after the first `|ids|` uses. */
  ghost predicate Reached(s: State, previous: Ids, uses: seq<Use>, keeps: string -> bool, ids: seq<string>) {
    && |ids| <= |uses|
    && Traced(s, previous.names, uses[..|ids|], ids) && Counted(s, previous, uses[..|ids|])
    && Explained(s, previous, uses, keeps, ids) && KeptAreMisused(previous, uses, keeps, ids)
  }

  /** The next ID has an origin. */
  lemma {:induction false} NextOrigin(s: State, previous: Ids, uses: seq<Use>, keeps: string -> bool,
                                      ids: seq<string>)
    requires Reached(s, previous, uses, keeps, ids) && |ids| < |uses| && Choose(s, uses[|ids|], keeps).Ok?
    ensures var id := Choose(s, uses[|ids|], keeps).value.1;
            && (id in previous.names ==> Origin(previous, uses, keeps, |ids|, id))
            && (Takes(previous, uses, |ids|).Some? ==> Takes(previous, uses, |ids|) == Some(id))
  {
    hide Choose;
    hide Takes;
    hide Matched;
    hide Counted;
    var n := |ids|;
    var u := uses[n];
    var id := Choose(s, u, keeps).value.1;
    HowChosen(s, u, keeps);
    ReusedIsTaken(s, previous, uses, n);
    if id in previous.names && Takes(previous, uses, n) != Some(id) {
      if Matched(uses, n) {
        hide Reused;
        MatchedOrigin(s, previous, uses, keeps, ids, id);
      } else {
        assert id == u.callId && keeps(id) && id !in s.ids.names;
        NotTakenYet(s, previous, uses, keeps, ids, id);
        assert Keeps(previous, uses, keeps, n);
      }
    }
  }

  lemma {:induction false} MatchedOrigin(s: State, previous: Ids, uses: seq<Use>, keeps: string -> bool,
                                         ids: seq<string>, id: string)
    requires Explained(s, previous, uses, keeps, ids) && |ids| < |uses| && id in previous.names
    requires var c := uses[|ids|].callId; Queue(s.awaiting, c) != [] && s.awaiting[c][0] == id
    ensures Origin(previous, uses, keeps, |ids|, id)
  {
    hide Takes;
    hide Keeps;
    var c := uses[|ids|].callId;
    assert GivenTo(uses, ids, s.awaiting[c][0], c);
    var i :| 0 <= i < |ids| && ids[i] == id && uses[i].callId == c;
    assert Origin(previous, uses, keeps, i, id);
    var k :| 0 <= k <= i && uses[k].callId == uses[i].callId
             && (Takes(previous, uses, k) == Some(id) || (Keeps(previous, uses, keeps, k) && uses[k].callId == id));
  }

  lemma {:induction false} NotTakenYet(s: State, previous: Ids, uses: seq<Use>, keeps: string -> bool,
                                       ids: seq<string>, id: string)
    requires Reached(s, previous, uses, keeps, ids) && id !in s.ids.names
    ensures forall l :: 0 <= l < |ids| ==> Takes(previous, uses, l) != Some(id)
  {
    hide Takes;
    hide Counted;
    forall l | 0 <= l < |ids| ensures Takes(previous, uses, l) != Some(id) {
      assert ids[l] in s.ids.names;
    }
  }

  lemma {:induction false} IdentifyExplained(s: State, previous: Ids, uses: seq<Use>, keeps: string -> bool,
                                             ids: seq<string>)
    requires Reached(s, previous, uses, keeps, ids) && |ids| < |uses| && Identify(s, uses[|ids|], keeps).Ok?
    ensures var (t, id) := Identify(s, uses[|ids|], keeps).value;
            Explained(t, previous, uses, keeps, ids + [id])
  {
    hide Choose;
    hide Takes;
    hide Origin;
    hide Counted;
    hide Traced;
    hide KeptAreMisused;
    var u := uses[|ids|];
    IdentifyForm(s, u, keeps);
    HowChosen(s, u, keeps);
    NextOrigin(s, previous, uses, keeps, ids);
    var (t, id) := Identify(s, u, keeps).value;
    hide Identify;
    var given := ids + [id];
    forall c, k | c in t.awaiting && 0 <= k < |t.awaiting[c]| ensures GivenTo(uses, given, t.awaiting[c][k], c) {
      AwaitedGiven(s, t, uses, ids, id, c, k);
    }
  }

  lemma {:induction false} AwaitedGiven(s: State, t: State, uses: seq<Use>, ids: seq<string>, id: string, c: string,
                                        k: nat)
    requires |ids| < |uses|
    requires forall d, l :: d in s.awaiting && 0 <= l < |s.awaiting[d]| ==> GivenTo(uses, ids, s.awaiting[d][l], d)
    requires c in t.awaiting && k < |t.awaiting[c]|
    requires var u := uses[|ids|];
             var matched := !u.call && Queue(s.awaiting, u.callId) != [];
             var less := if matched then s.awaiting[u.callId := s.awaiting[u.callId][1..]] else s.awaiting;
             t.awaiting == less || t.awaiting == less[u.callId := Queue(less, u.callId) + [id]]
    ensures GivenTo(uses, ids + [id], t.awaiting[c][k], c)
  {
    var u, given := uses[|ids|], ids + [id];
    var x := t.awaiting[c][k];
    if c == u.callId && x == id {
      assert given[|ids|] == id;
    } else {
      var matched := !u.call && Queue(s.awaiting, u.callId) != [];
      var l := if matched && c == u.callId then k + 1 else k;
      assert x == s.awaiting[c][l];
      var i :| 0 <= i < |ids| && ids[i] == x && uses[i].callId == c;
      assert given[i] == x;
    }
  }

  lemma {:induction false} MisusedLater(previous: Ids, uses: seq<Use>, ids: seq<string>, id: string, x: string)
    requires |ids| < |uses| && Misused(previous, uses, ids, x)
    ensures Misused(previous, uses, ids + [id], x)
  {
    var i :| 0 <= i < |ids| && ids[i] == x && uses[i].callId != previous.names[x];
    assert (ids + [id])[i] == x;
  }

  /** A kept ID is either given now, or was given before to a use that is not of the ID it stood for. */
  lemma {:induction false} KeptIsMisused(s: State, previous: Ids, uses: seq<Use>, keeps: string -> bool,
                                         ids: seq<string>)
    requires Reached(s, previous, uses, keeps, ids) && |ids| < |uses| && Choose(s, uses[|ids|], keeps).Ok?
    requires Keeps(previous, uses, keeps, |ids|) && Foreign(previous, uses[|ids|].callId)
    ensures Misused(previous, uses, ids + [Choose(s, uses[|ids|], keeps).value.1], uses[|ids|].callId)
  {
    hide Choose;
    hide Takes;
    hide Matched;
    hide Counted;
    var n := |ids|;
    var x, id := uses[n].callId, Choose(s, uses[n], keeps).value.1;
    HowChosen(s, uses[n], keeps);
    ReusedIsTaken(s, previous, uses, n);
    if x !in s.ids.names {
      assert id == x && (ids + [id])[n] == x;
    } else {
      assert Given(s, uses[..n], ids);
      var i :| 0 <= i < n && ids[i] == x && uses[..n][i].callId == s.ids.names[x];
      assert Origin(previous, uses, keeps, i, x);
      var k :| 0 <= k <= i && uses[k].callId == uses[i].callId
               && (Takes(previous, uses, k) == Some(x) || (Keeps(previous, uses, keeps, k) && uses[k].callId == x));
      assert (ids + [id])[i] == x;
    }
  }

  lemma {:induction false} IdentifyMisused(s: State, previous: Ids, uses: seq<Use>, keeps: string -> bool,
                                           ids: seq<string>)
    requires Reached(s, previous, uses, keeps, ids) && |ids| < |uses| && Identify(s, uses[|ids|], keeps).Ok?
    ensures KeptAreMisused(previous, uses, keeps, ids + [Identify(s, uses[|ids|], keeps).value.1])
  {
    hide Keeps;
    hide Misused;
    IdentifyForm(s, uses[|ids|], keeps);
    var id := Identify(s, uses[|ids|], keeps).value.1;
    hide Identify;
    hide Choose;
    forall k | 0 <= k <= |ids| && Keeps(previous, uses, keeps, k) && Foreign(previous, uses[k].callId)
      ensures Misused(previous, uses, ids + [id], uses[k].callId)
    {
      if k == |ids| {
        KeptIsMisused(s, previous, uses, keeps, ids);
      } else {
        MisusedLater(previous, uses, ids, id, uses[k].callId);
      }
    }
  }

  lemma {:induction false} BeginReached(previous: Ids, supply: seq<string>, uses: seq<Use>, keeps: string -> bool)
    requires forall k :: 0 <= k < |supply| ==> supply[k] !in previous.names
    ensures Reached(Begin(previous, supply), previous, uses, keeps, [])
  {
    BeginTraced(previous, supply);
    BeginCounted(previous, supply);
  }

  lemma {:induction false} PrefixReached(previous: Ids, supply: seq<string>, uses: seq<Use>, keeps: string -> bool,
                                         n: nat)
    requires forall k :: 0 <= k < |supply| ==> supply[k] !in previous.names
    requires n <= |uses|
    ensures var r := IdentifyAll(Begin(previous, supply), uses[..n], keeps);
            r.Ok? ==> |r.value.1| == n && Reached(r.value.0, previous, uses, keeps, r.value.1)
    decreases n
  {
    hide Identify;
    hide Reached;
    if n == 0 {
      BeginReached(previous, supply, uses, keeps);
    } else {
      var s, u := Begin(previous, supply), uses[n - 1];
      PrefixReached(previous, supply, uses, keeps, n - 1);
      assert uses[..n] == uses[..n - 1] + [u];
      IdentifyAllConcat(s, uses[..n - 1], [u], keeps);
      if IdentifyAll(s, uses[..n], keeps).Ok? {
        var (t, ids) := IdentifyAll(s, uses[..n - 1], keeps).value;
        OneUse(t, u, keeps);
        NextReached(t, previous, uses, keeps, ids);
      }
    }
  }

  lemma {:induction false} OneUse(s: State, u: Use, keeps: string -> bool)
    ensures IdentifyAll(s, [u], keeps)
         == match Identify(s, u, keeps) case Err(e) => Err(e) case Ok((t, id)) => Ok((t, [id]))
  {
    hide Identify;
    assert [u][1..] == [];
    if Identify(s, u, keeps).Ok? { assert [Identify(s, u, keeps).value.1] + [] == [Identify(s, u, keeps).value.1]; }
  }

  lemma {:induction false} ReachedIs(s: State, previous: Ids, uses: seq<Use>, keeps: string -> bool, ids: seq<string>)
    requires |ids| <= |uses|
    requires Traced(s, previous.names, uses[..|ids|], ids) && Counted(s, previous, uses[..|ids|])
    requires Explained(s, previous, uses, keeps, ids) && KeptAreMisused(previous, uses, keeps, ids)
    ensures Reached(s, previous, uses, keeps, ids)
  {
  }

  lemma {:induction false} NextReached(s: State, previous: Ids, uses: seq<Use>, keeps: string -> bool,
                                       ids: seq<string>)
    requires Reached(s, previous, uses, keeps, ids) && |ids| < |uses| && Identify(s, uses[|ids|], keeps).Ok?
    ensures var (t, id) := Identify(s, uses[|ids|], keeps).value;
            Reached(t, previous, uses, keeps, ids + [id])
  {
    hide Identify;
    hide Traced;
    hide Counted;
    hide Explained;
    hide KeptAreMisused;
    var n := |ids|;
    IdentifyTraced(s, uses[n], keeps, previous.names, uses[..n], ids);
    IdentifyCounted(s, uses[n], keeps, previous, uses[..n]);
    IdentifyExplained(s, previous, uses, keeps, ids);
    IdentifyMisused(s, previous, uses, keeps, ids);
    var (t, id) := Identify(s, uses[n], keeps).value;
    assert uses[..n + 1] == uses[..n] + [uses[n]] && |ids + [id]| == n + 1;
    ReachedIs(t, previous, uses, keeps, ids + [id]);
  }

  // ----- When a context is refused -----

  /** A clash of the pass is one between a kept ID and a later use of the ID it stood for. */
  lemma {:induction false} ClashConflicts(ms: seq<Message>, previous: Ids, supply: seq<string>,
                                          keeps: string -> bool, j: nat) returns (k: nat)
    requires forall i :: 0 <= i < |supply| ==> supply[i] !in previous.names
    requires j < |Uses(ms)| && Clashes(ms, previous, supply, keeps, j)
    ensures Conflict(previous, Uses(ms), keeps, k, j)
  {
    hide IdentifyAll;
    hide Takes;
    hide Reused;
    hide Counted;
    hide Traced;
    var uses := Uses(ms);
    PrefixReached(previous, supply, uses, keeps, j);
    var (s, ids) := IdentifyAll(Begin(previous, supply), uses[..j], keeps).value;
    ReusedIsTaken(s, previous, uses, j);
    var i :| 0 <= i < |ids| && Reused(s, uses[j]) == Some(ids[i]) && ids[i] in previous.names
             && previous.names[ids[i]] == uses[j].callId && uses[..j][i].callId != uses[j].callId;
    var x := ids[i];
    assert Origin(previous, uses, keeps, i, x);
    k :| 0 <= k <= i && uses[k].callId == uses[i].callId
         && (Takes(previous, uses, k) == Some(x) || (Keeps(previous, uses, keeps, k) && uses[k].callId == x));
    if Takes(previous, uses, k) == Some(x) { TakenStandsFor(previous, uses, k); }
  }

  lemma {:induction false} NamedMembers(order: seq<string>, names: map<string, string>, c: string)
    ensures forall x :: x in Named(order, names, c) ==> x in names && names[x] == c
  {
    if order != [] { NamedMembers(order[1..], names, c); }
  }

  lemma {:induction false} TakenStandsFor(previous: Ids, uses: seq<Use>, j: nat)
    requires j < |uses| && Takes(previous, uses, j).Some?
    ensures var x := Takes(previous, uses, j).value; x in previous.names && previous.names[x] == uses[j].callId
  {
    NamedMembers(previous.order, previous.names, uses[j].callId);
  }

  lemma {:induction false} ConflictClashes(ms: seq<Message>, previous: Ids, supply: seq<string>,
                                           keeps: string -> bool, k: nat, j: nat)
    requires forall i :: 0 <= i < |supply| ==> supply[i] !in previous.names
    requires Conflict(previous, Uses(ms), keeps, k, j)
    requires IdentifyAll(Begin(previous, supply), Uses(ms)[..j], keeps).Ok?
    ensures Clashes(ms, previous, supply, keeps, j)
  {
    hide IdentifyAll;
    hide Takes;
    hide Keeps;
    hide Reused;
    hide Counted;
    hide Traced;
    hide Explained;
    var uses := Uses(ms);
    PrefixReached(previous, supply, uses, keeps, j);
    var (s, ids) := IdentifyAll(Begin(previous, supply), uses[..j], keeps).value;
    ReusedIsTaken(s, previous, uses, j);
    TakenStandsFor(previous, uses, j);
    var x := uses[k].callId;
    assert Misused(previous, uses, ids, x);
    var i :| 0 <= i < |ids| && ids[i] == x && uses[i].callId != previous.names[x];
    assert uses[..j][i] == uses[i];
  }

  /** Under a generator of IDs the previous map does not know, a context is refused exactly when one of its uses
      keeps a provider ID that is also a known base ID of another provider ID, and a later use takes that base ID
      up again. (Only running out of generated IDs, which the program cannot, is left aside.) */
  lemma {:induction false} RefusedIff(ms: seq<Message>, previous: Ids, supply: seq<string>, keeps: string -> bool)
    requires forall i :: 0 <= i < |supply| ==> supply[i] !in previous.names
    ensures var r := BaseContextMessages(ms, previous, supply, keeps);
            r != Err(OutOfIds) ==> (r.Err? <==> exists k, j :: Conflict(previous, Uses(ms), keeps, k, j))
  {
    hide IdentifyAll;
    hide Conflict;
    hide Clashes;
    var uses, r := Uses(ms), BaseContextMessages(ms, previous, supply, keeps);
    DuplicateMappingIff(ms, previous, supply, keeps);
    ErrorsAre(Begin(previous, supply), uses, keeps);
    if r == Err(DuplicateMapping) {
      var j :| 0 <= j < |uses| && Clashes(ms, previous, supply, keeps, j);
      var k := ClashConflicts(ms, previous, supply, keeps, j);
    }
    if k: nat, j: nat :| Conflict(previous, uses, keeps, k, j) {
      ConflictBounds(previous, uses, keeps, k, j);
      PrefixFails(Begin(previous, supply), uses, keeps, j);
      if IdentifyAll(Begin(previous, supply), uses[..j], keeps).Ok? {
        ConflictClashes(ms, previous, supply, keeps, k, j);
      }
    }
  }

  lemma {:induction false} ConflictBounds(previous: Ids, uses: seq<Use>, keeps: string -> bool, k: nat, j: nat)
    requires Conflict(previous, uses, keeps, k, j)
    ensures k < j < |uses|
  {
  }

  lemma {:induction false} PrefixFails(s: State, uses: seq<Use>, keeps: string -> bool, j: nat)
    requires j <= |uses|
    ensures IdentifyAll(s, uses[..j], keeps).Err? ==> IdentifyAll(s, uses, keeps).Err?
  {
    hide IdentifyAll;
    assert uses == uses[..j] + uses[j..];
    IdentifyAllConcat(s, uses[..j], uses[j..], keeps);
  }

  lemma {:induction false} ErrorsAre(s: State, uses: seq<Use>, keeps: string -> bool)
    ensures var r := IdentifyAll(s, uses, keeps); r.Err? ==> r.error == DuplicateMapping || r.error == OutOfIds
    decreases |uses|
  {
    if uses != [] && Identify(s, uses[0], keeps).Ok? {
      ErrorsAre(Identify(s, uses[0], keeps).value.0, uses[1..], keeps);
    }
  }

  /** A context is never refused when no provider ID may stay as it is, or when nothing was known before. */
  lemma {:induction false} NeverRefused(ms: seq<Message>, previous: Ids, supply: seq<string>, keeps: string -> bool)
    requires forall i :: 0 <= i < |supply| ==> supply[i] !in previous.names
    requires (forall c :: !keeps(c)) || previous.names == map[]
    ensures var r := BaseContextMessages(ms, previous, supply, keeps); r != Err(OutOfIds) ==> r.Ok?
  {
    hide BaseContextMessages;
    RefusedIff(ms, previous, supply, keeps);
    if k: nat, j: nat :| Conflict(previous, Uses(ms), keeps, k, j) {
      TakenStandsFor(previous, Uses(ms), j);
    }
  }

  /** A call that keeps its portable ID although that is the base ID of another provider ID, which is called
      next: the second call is refused. */
  lemma {:induction false} KeptIdIsRefused(keeps: string -> bool)
    requires keeps("x")
    ensures BaseContextMessages([Assistant([ToolCall("x", false, ""), ToolCall("p", false, "")])],
                                Ids(["x"], map["x" := "p"]), ["y", "z"], keeps) == Err(DuplicateMapping)
  {
    var previous := Ids(["x"], map["x" := "p"]);
    var blocks := [ToolCall("x", false, ""), ToolCall("p", false, "")];
    var uses := [Use(true, "x"), Use(true, "p")];
    assert blocks[1..] == [blocks[1]] && blocks[1..][1..] == [];
    assert BlocksUses(blocks[1..]) == [Use(true, "p")];
    assert BlocksUses(blocks) == uses;
    assert Uses([Assistant(blocks)]) == uses;
    var s := Begin(previous, ["y", "z"]);
    assert previous.order[..0] == [];
    assert Queue(s.callIds, "x") == [] && Queue(s.callIds, "p") == ["x"];
    var t := Identify(s, uses[0], keeps).value.0;
    assert Identify(t, uses[1], keeps) == Err(DuplicateMapping);
    assert uses[1..][0] == uses[1];
  }
}
