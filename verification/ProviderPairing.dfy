/** Which base ID each call and each result of a provider context is given (AgentProviderContext.ts). */
module ProviderPairing {
  import opened Basics
  import opened ProviderContext
  import opened ProviderMapper

  /** The IDs given to the calls (or the results) of one provider ID, in order. */
  function IdsFor(uses: seq<Use>, ids: seq<string>, u: Use): seq<string>
    requires |uses| == |ids|
  {
    if uses == [] then [] else (if uses[0] == u then [ids[0]] else []) + IdsFor(uses[1..], ids[1..], u)
  }

  /** Results of `c` never outnumber its calls so far, given `credit` calls before. */
  predicate Follows(uses: seq<Use>, c: string, credit: nat) {
    if uses == [] then true
    else if uses[0] == Use(true, c) then Follows(uses[1..], c, credit + 1)
    else if uses[0] == Use(false, c) then credit > 0 && Follows(uses[1..], c, credit - 1)
    else Follows(uses[1..], c, credit)
  }

  // ----- One use -----

  lemma {:induction false} IdentifyQueues(s: State, u: Use, keeps: string -> bool, c: string)
    requires Identify(s, u, keeps).Ok?
    ensures var t := Identify(s, u, keeps).value.0;
            var id := Identify(s, u, keeps).value.1;
            && (u == Use(true, c) ==>
                  && Queue(t.awaiting, c) == Queue(s.awaiting, c) + [id]
                  && (if Queue(s.callIds, c) == [] then Queue(t.callIds, c) == []
                      else Queue(s.callIds, c) == [id] + Queue(t.callIds, c)))
            && (u != Use(true, c) ==> Queue(t.callIds, c) == Queue(s.callIds, c))
            && (u == Use(false, c) && Queue(s.awaiting, c) != [] ==>
                  Queue(s.awaiting, c) == [id] + Queue(t.awaiting, c))
            && (u != Use(true, c) && u != Use(false, c) ==> Queue(t.awaiting, c) == Queue(s.awaiting, c))
  {
  }

  // ----- Pairing -----

  lemma {:induction false} IdsForCons(uses: seq<Use>, id: string, rest: seq<string>, u: Use)
    requires uses != [] && |uses| == |rest| + 1
    ensures IdsFor(uses, [id] + rest, u) == (if uses[0] == u then [id] else []) + IdsFor(uses[1..], rest, u)
  {
    assert ([id] + rest)[1..] == rest;
  }

  lemma {:induction false} PairingFrom(s: State, uses: seq<Use>, keeps: string -> bool, c: string)
    requires Follows(uses, c, |Queue(s.awaiting, c)|)
    ensures var r := IdentifyAll(s, uses, keeps); r.Ok? ==>
              && |r.value.1| == |uses|
              && IdsFor(uses, r.value.1, Use(false, c))
                 <= Queue(s.awaiting, c) + IdsFor(uses, r.value.1, Use(true, c))
    decreases |uses|
  {
    hide Identify;
    hide IdsFor;
    if uses == [] {
      NoIds(Use(false, c));
    } else if Identify(s, uses[0], keeps).Ok? {
      IdentifyQueues(s, uses[0], keeps, c);
      var (t, id) := Identify(s, uses[0], keeps).value;
      PairingFrom(t, uses[1..], keeps, c);
      if IdentifyAll(t, uses[1..], keeps).Ok? {
        var rest := IdentifyAll(t, uses[1..], keeps).value.1;
        IdsForCons(uses, id, rest, Use(true, c));
        IdsForCons(uses, id, rest, Use(false, c));
        PairingStep(Queue(s.awaiting, c), Queue(t.awaiting, c), id, IdsFor(uses[1..], rest, Use(true, c)),
                    IdsFor(uses[1..], rest, Use(false, c)));
      }
    }
  }

  lemma {:induction false} NoIds(u: Use)
    ensures IdsFor([], [], u) == []
  {
  }

  lemma {:induction false} PairingStep(q: seq<string>, q': seq<string>, id: string, calls: seq<string>,
                                       results: seq<string>)
    requires results <= q' + calls
    ensures q' == q + [id] ==> [] + results <= q + ([id] + calls)
    ensures q == [id] + q' ==> [id] + results <= q + ([] + calls)
    ensures q == q' ==> [] + results <= q + ([] + calls)
  {
    assert [] + results == results && [] + calls == calls;
    assert q + [id] + calls == q + ([id] + calls);
    assert [id] + q' + calls == [id] + (q' + calls);
    assert forall i :: 0 <= i < |results| ==> ([id] + results)[i + 1] == results[i] == (q' + calls)[i];
  }

  /** When results follow their calls, the n-th result of a provider ID gets the n-th call's base ID. */
  lemma {:induction false} ResultsMatchCalls(ms: seq<Message>, previous: Ids, supply: seq<string>,
                                             keeps: string -> bool, c: string)
    requires Follows(Uses(ms), c, 0)
    ensures var r := IdentifyAll(Begin(previous, supply), Uses(ms), keeps); r.Ok? ==>
              && |r.value.1| == |Uses(ms)|
              && IdsFor(Uses(ms), r.value.1, Use(false, c)) <= IdsFor(Uses(ms), r.value.1, Use(true, c))
  {
    PairingFrom(Begin(previous, supply), Uses(ms), keeps, c);
    var r := IdentifyAll(Begin(previous, supply), Uses(ms), keeps);
    if r.Ok? {
      assert [] + IdsFor(Uses(ms), r.value.1, Use(true, c)) == IdsFor(Uses(ms), r.value.1, Use(true, c));
    }
  }

  // ----- Reuse -----

  lemma {:induction false} ReuseFrom(s: State, uses: seq<Use>, keeps: string -> bool, c: string)
    ensures var r := IdentifyAll(s, uses, keeps); r.Ok? ==>
              && |r.value.1| == |uses|
              && var calls := IdsFor(uses, r.value.1, Use(true, c));
                 calls <= Queue(s.callIds, c) || Queue(s.callIds, c) <= calls
    decreases |uses|
  {
    hide Identify;
    if uses != [] && Identify(s, uses[0], keeps).Ok? {
      IdentifyQueues(s, uses[0], keeps, c);
      var (t, id) := Identify(s, uses[0], keeps).value;
      ReuseFrom(t, uses[1..], keeps, c);
      if IdentifyAll(t, uses[1..], keeps).Ok? {
        var rest := IdentifyAll(t, uses[1..], keeps).value.1;
        var ids := [id] + rest;
        assert ids[1..] == rest;
        var calls := IdsFor(uses[1..], rest, Use(true, c));
        assert IdsFor(uses, ids, Use(true, c)) == (if uses[0] == Use(true, c) then [id] else []) + calls;
      }
    }
  }

  lemma {:induction false} NamedSnoc(order: seq<string>, last: string, names: map<string, string>, c: string)
    ensures Named(order + [last], names, c)
         == Named(order, names, c) + (if last in names && names[last] == c then [last] else [])
  {
    if order == [] {
      assert [] + [last] == [last] && [last][1..] == [];
    } else {
      NamedSnoc(order[1..], last, names, c);
      assert (order + [last])[1..] == order[1..] + [last];
    }
  }

  lemma {:induction false} QueuesAreNamed(order: seq<string>, names: map<string, string>, c: string)
    ensures Queue(ByProvider(order, names), c) == Named(order, names, c)
  {
    if order != [] {
      var front, id := order[..|order| - 1], order[|order| - 1];
      assert order == front + [id];
      QueuesAreNamed(front, names, c);
      NamedSnoc(front, id, names, c);
    }
  }

  /** The n-th call of a provider ID keeps the n-th base ID that provider ID had before, while there is one. */
  lemma {:induction false} CallsReusePrevious(ms: seq<Message>, previous: Ids, supply: seq<string>,
                                              keeps: string -> bool, c: string)
    ensures var r := IdentifyAll(Begin(previous, supply), Uses(ms), keeps); r.Ok? ==>
              && |r.value.1| == |Uses(ms)|
              && var calls := IdsFor(Uses(ms), r.value.1, Use(true, c));
                 var known := Named(previous.order, previous.names, c);
                 calls <= known || known <= calls
  {
    QueuesAreNamed(previous.order, previous.names, c);
    ReuseFrom(Begin(previous, supply), Uses(ms), keeps, c);
  }

  // ----- When a context is accepted -----

  predicate Distinct(s: seq<string>) {
    forall i, j :: 0 <= i < j < |s| ==> s[i] != s[j]
  }

  /** The generator returns new IDs, and an ID that is kept clashes with neither it nor the previous map. */
  predicate Suitable(uses: seq<Use>, previous: map<string, string>, supply: seq<string>, keeps: string -> bool) {
    && Distinct(supply) && |uses| <= |supply|
    && (forall i :: 0 <= i < |supply| ==> supply[i] !in previous)
    && (forall i :: 0 <= i < |uses| && keeps(uses[i].callId) ==>
          uses[i].callId !in supply
          && (uses[i].callId in previous ==> previous[uses[i].callId] == uses[i].callId))
  }

  ghost predicate Drawn(m: Queues, names: map<string, string>) {
    forall c, k :: c in m && 0 <= k < |m[c]| ==> m[c][k] in names && names[m[c][k]] == c
  }

  /** Queued IDs stand for the provider ID they are queued under, and nothing remembered contradicts it. */
  ghost predicate Agrees(s: State, previous: map<string, string>) {
    && Drawn(s.callIds, previous) && Drawn(s.resultIds, previous) && Drawn(s.awaiting, s.ids.names)
    && (forall id :: id in s.ids.names && id in previous ==> s.ids.names[id] == previous[id])
    && (forall i :: 0 <= i < |s.supply| ==> s.supply[i] !in s.ids.names)
  }

  lemma {:induction false} DrawnRest(m: Queues, names: map<string, string>, c: string)
    requires Drawn(m, names) && c in m && m[c] != []
    ensures Drawn(m[c := m[c][1..]], names) && m[c][0] in names && names[m[c][0]] == c
  {
    var rest := m[c := m[c][1..]];
    forall d, k | d in rest && 0 <= k < |rest[d]| ensures rest[d][k] in names && names[rest[d][k]] == d {
      if d == c { assert rest[d][k] == m[c][k + 1]; }
    }
  }

  lemma {:induction false} DrawnLater(m: Queues, names: map<string, string>, id: string, c: string)
    requires Drawn(m, names) && (id in names ==> names[id] == c)
    ensures Drawn(m, names[id := c])
    ensures Drawn(m[c := Queue(m, c) + [id]], names[id := c])
  {
    var more, m' := names[id := c], m[c := Queue(m, c) + [id]];
    forall d, k | d in m' && 0 <= k < |m'[d]| ensures m'[d][k] in more && more[m'[d][k]] == d {
      if d == c && c in m && k < |m[c]| { assert m'[d][k] == m[c][k]; }
    }
  }

  /** The chosen ID is one that may stand for the provider ID. */
  lemma {:induction false} ChosenAgrees(s: State, uses: seq<Use>, keeps: string -> bool,
                                        previous: map<string, string>)
    requires uses != [] && Suitable(uses, previous, s.supply, keeps) && Agrees(s, previous)
    ensures var c := uses[0].callId;
            && Choose(s, uses[0], keeps).Ok?
            && var (t, id) := Choose(s, uses[0], keeps).value;
            && Drawn(t.callIds, previous) && Drawn(t.resultIds, previous) && Drawn(t.awaiting, s.ids.names)
            && t.ids == s.ids
            && (id in s.ids.names ==> s.ids.names[id] == c) && (id in previous ==> previous[id] == c)
            && (t.supply == s.supply || (s.supply != [] && id == s.supply[0] && t.supply == s.supply[1..]))
            && id !in t.supply
  {
    var u, c := uses[0], uses[0].callId;
    if Queue(s.callIds, c) != [] { DrawnRest(s.callIds, previous, c); }
    if Queue(s.awaiting, c) != [] { DrawnRest(s.awaiting, s.ids.names, c); }
    if Queue(s.resultIds, c) != [] { DrawnRest(s.resultIds, previous, c); }
    assert s.supply[0] !in s.ids.names;
  }

  lemma {:induction false} IdentifyAgrees(s: State, uses: seq<Use>, keeps: string -> bool,
                                          previous: map<string, string>)
    requires uses != [] && Suitable(uses, previous, s.supply, keeps) && Agrees(s, previous)
    ensures var r := Identify(s, uses[0], keeps);
            r.Ok? && Agrees(r.value.0, previous) && Suitable(uses[1..], previous, r.value.0.supply, keeps)
  {
    ChosenAgrees(s, uses, keeps, previous);
    hide Choose;
    var c := uses[0].callId;
    var (t, id) := Choose(s, uses[0], keeps).value;
    var end := Identify(s, uses[0], keeps).value.0;
    DrawnLater(t.awaiting, s.ids.names, id, c);
    assert end.ids.names == s.ids.names[id := c] by {
      if id in s.ids.names { assert s.ids.names[id := c] == s.ids.names; }
    }
  }

  lemma {:induction false} IdentifyAllSucceeds(s: State, uses: seq<Use>, keeps: string -> bool,
                                               previous: map<string, string>)
    requires Suitable(uses, previous, s.supply, keeps) && Agrees(s, previous)
    ensures IdentifyAll(s, uses, keeps).Ok?
    decreases |uses|
  {
    hide Identify;
    hide Agrees;
    hide Suitable;
    if uses != [] {
      IdentifyAgrees(s, uses, keeps, previous);
      IdentifyAllSucceeds(Identify(s, uses[0], keeps).value.0, uses[1..], keeps, previous);
    }
  }

  lemma {:induction false} ByProviderDrawn(order: seq<string>, names: map<string, string>)
    ensures Drawn(ByProvider(order, names), names)
  {
    if order != [] {
      var id := order[|order| - 1];
      ByProviderDrawn(order[..|order| - 1], names);
      if id in names {
        DrawnLater(ByProvider(order[..|order| - 1], names), names, id, names[id]);
        assert names[id := names[id]] == names;
      }
    }
  }

  /** A context is never refused while the generator's IDs are new and kept IDs clash with nothing. */
  lemma {:induction false} SuitableContextIsAccepted(ms: seq<Message>, previous: Ids, supply: seq<string>,
                                                     keeps: string -> bool)
    requires Suitable(Uses(ms), previous.names, supply, keeps)
    ensures BaseContextMessages(ms, previous, supply, keeps).Ok?
  {
    ByProviderDrawn(previous.order, previous.names);
    IdentifyAllSucceeds(Begin(previous, supply), Uses(ms), keeps, previous.names);
  }

  // ----- When an identity maps to two provider IDs -----

  /** Every ID remembered was given to a use of the provider ID it stands for. */
  ghost predicate Given(s: State, uses: seq<Use>, ids: seq<string>)
    requires |uses| == |ids|
  {
    forall id :: id in s.ids.names ==>
      exists i :: 0 <= i < |ids| && ids[i] == id && uses[i].callId == s.ids.names[id]
  }

  /** The state after `uses` were given `ids`. */
  ghost predicate Traced(s: State, previous: map<string, string>, uses: seq<Use>, ids: seq<string>) {
    && |uses| == |ids|
    && Drawn(s.callIds, previous) && Drawn(s.resultIds, previous) && Drawn(s.awaiting, s.ids.names)
    && Given(s, uses, ids)
    && forall i :: 0 <= i < |ids| ==> ids[i] in s.ids.names && s.ids.names[ids[i]] == uses[i].callId
  }

  /** The earlier base ID this use takes up again, if it takes one up. */
  function Reused(s: State, u: Use): Option<string> {
    if u.call && Queue(s.callIds, u.callId) != [] then Some(s.callIds[u.callId][0])
    else if !u.call && Queue(s.awaiting, u.callId) == [] && Queue(s.resultIds, u.callId) != []
    then Some(s.resultIds[u.callId][0])
    else None
  }

  lemma {:induction false} ChosenDraws(s: State, u: Use, keeps: string -> bool, previous: map<string, string>)
    requires Drawn(s.callIds, previous) && Drawn(s.resultIds, previous) && Drawn(s.awaiting, s.ids.names)
    requires Choose(s, u, keeps).Ok?
    ensures var (t, id) := Choose(s, u, keeps).value;
            && Drawn(t.callIds, previous) && Drawn(t.resultIds, previous) && Drawn(t.awaiting, s.ids.names)
            && t.ids == s.ids
            && (Reused(s, u) == Some(id) ==> id in previous && previous[id] == u.callId)
            && (Reused(s, u) == None && id in s.ids.names ==> s.ids.names[id] == u.callId)
            && (Reused(s, u) == None || Reused(s, u) == Some(id))
  {
    var c := u.callId;
    if Queue(s.callIds, c) != [] { DrawnRest(s.callIds, previous, c); }
    if Queue(s.awaiting, c) != [] { DrawnRest(s.awaiting, s.ids.names, c); }
    if Queue(s.resultIds, c) != [] { DrawnRest(s.resultIds, previous, c); }
    FirstNewIsNew(s.supply, s.ids.names);
  }

  lemma {:induction false} FirstNewIsNew(supply: seq<string>, names: map<string, string>)
    ensures var r := FirstNew(supply, names); r.Some? && r.value != [] ==> r.value[0] !in names
  {
    if supply != [] && supply[0] in names { FirstNewIsNew(supply[1..], names); }
  }

  /** What an identified use leaves behind. */
  lemma {:induction false} IdentifyForm(s: State, u: Use, keeps: string -> bool)
    requires Identify(s, u, keeps).Ok?
    ensures Choose(s, u, keeps).Ok?
    ensures var (t, id) := Choose(s, u, keeps).value;
            var end := Identify(s, u, keeps).value.0;
            && Identify(s, u, keeps).value.1 == id
            && (id in t.ids.names ==> t.ids.names[id] == u.callId)
            && end.callIds == t.callIds && end.resultIds == t.resultIds
            && end.ids.names == t.ids.names[id := u.callId]
            && (end.awaiting == t.awaiting || end.awaiting == t.awaiting[u.callId := Queue(t.awaiting, u.callId) + [id]])
  {
    hide Choose;
    var (t, id) := Choose(s, u, keeps).value;
    if id in t.ids.names { assert t.ids.names[id := u.callId] == t.ids.names; }
  }

  lemma {:induction false} IdentifyTraced(s: State, u: Use, keeps: string -> bool, previous: map<string, string>,
                                          uses: seq<Use>, ids: seq<string>)
    requires Traced(s, previous, uses, ids) && Identify(s, u, keeps).Ok?
    ensures Traced(Identify(s, u, keeps).value.0, previous, uses + [u], ids + [Identify(s, u, keeps).value.1])
  {
    hide Choose;
    hide Identify;
    hide Reused;
    hide Given;
    hide Drawn;
    IdentifyForm(s, u, keeps);
    ChosenDraws(s, u, keeps, previous);
    var (t, id) := Choose(s, u, keeps).value;
    DrawnLater(t.awaiting, s.ids.names, id, u.callId);
    GivenLater(s, Identify(s, u, keeps).value.0, uses, ids, u, id);
  }

  lemma {:induction false} GivenLater(s: State, t: State, uses: seq<Use>, ids: seq<string>, u: Use, id: string)
    requires |uses| == |ids| && Given(s, uses, ids) && t.ids.names == s.ids.names[id := u.callId]
    ensures Given(t, uses + [u], ids + [id])
  {
    var us, given := uses + [u], ids + [id];
    forall k | k in t.ids.names
      ensures exists i :: 0 <= i < |given| && given[i] == k && us[i].callId == t.ids.names[k] {
      if k == id {
        assert given[|ids|] == id && us[|ids|] == u;
      } else {
        var i :| 0 <= i < |ids| && ids[i] == k && uses[i].callId == s.ids.names[k];
        assert given[i] == k && us[i] == uses[i];
      }
    }
  }

  lemma {:induction false} AllTraced(s: State, rest: seq<Use>, keeps: string -> bool, previous: map<string, string>,
                                     uses: seq<Use>, ids: seq<string>)
    requires Traced(s, previous, uses, ids) && IdentifyAll(s, rest, keeps).Ok?
    ensures Traced(IdentifyAll(s, rest, keeps).value.0, previous, uses + rest, ids + IdentifyAll(s, rest, keeps).value.1)
    decreases |rest|
  {
    hide Identify;
    hide Traced;
    if rest == [] {
      assert uses + [] == uses && ids + [] == ids;
    } else {
      var (t, id) := Identify(s, rest[0], keeps).value;
      IdentifyTraced(s, rest[0], keeps, previous, uses, ids);
      AllTraced(t, rest[1..], keeps, previous, uses + [rest[0]], ids + [id]);
      var more := IdentifyAll(t, rest[1..], keeps).value.1;
      assert uses + [rest[0]] + rest[1..] == uses + rest;
      Associative(ids, [id], more);
    }
  }

  lemma {:induction false} BeginTraced(previous: Ids, supply: seq<string>)
    ensures Traced(Begin(previous, supply), previous.names, [], [])
  {
    ByProviderDrawn(previous.order, previous.names);
  }

  /** `u` takes up an earlier base ID that was meanwhile given to another provider ID. */
  predicate Retaken(s: State, u: Use, previous: map<string, string>, uses: seq<Use>, ids: seq<string>)
    requires |uses| == |ids|
  {
    exists i :: 0 <= i < |ids| && Reused(s, u) == Some(ids[i])
                && ids[i] in previous && previous[ids[i]] == u.callId && uses[i].callId != u.callId
  }

  /** Use `j` of the context is such a use, and no use before it was refused. */
  predicate Clashes(ms: seq<Message>, previous: Ids, supply: seq<string>, keeps: string -> bool, j: nat)
    requires j < |Uses(ms)|
  {
    var r := IdentifyAll(Begin(previous, supply), Uses(ms)[..j], keeps);
    r.Ok? && |r.value.1| == j && Retaken(r.value.0, Uses(ms)[j], previous.names, Uses(ms)[..j], r.value.1)
  }

  lemma {:induction false} DuplicateStep(s: State, u: Use, keeps: string -> bool, previous: map<string, string>,
                                         uses: seq<Use>, ids: seq<string>)
    requires Traced(s, previous, uses, ids)
    ensures Identify(s, u, keeps) == Err(DuplicateMapping) <==> Retaken(s, u, previous, uses, ids)
  {
    if Choose(s, u, keeps).Ok? {
      ChosenDraws(s, u, keeps, previous);
      var (t, id) := Choose(s, u, keeps).value;
      if Identify(s, u, keeps) == Err(DuplicateMapping) {
        var i :| 0 <= i < |ids| && ids[i] == id && uses[i].callId == s.ids.names[id];
        assert Reused(s, u) == Some(ids[i]);
      }
    }
  }

  lemma {:induction false} FirstFailure(s: State, uses: seq<Use>, keeps: string -> bool) returns (j: nat)
    requires IdentifyAll(s, uses, keeps).Err?
    ensures j < |uses|
    ensures var r := IdentifyAll(s, uses[..j], keeps);
            r.Ok? && Identify(r.value.0, uses[j], keeps) == Err(IdentifyAll(s, uses, keeps).error)
    decreases |uses|
  {
    hide Identify;
    if Identify(s, uses[0], keeps).Err? {
      j := 0;
      assert uses[..0] == [];
    } else {
      var k := FirstFailure(Identify(s, uses[0], keeps).value.0, uses[1..], keeps);
      j := k + 1;
      assert uses[..j][0] == uses[0] && uses[..j][1..] == uses[1..][..k];
    }
  }

  lemma {:induction false} FailureStops(s: State, uses: seq<Use>, keeps: string -> bool, j: nat)
    requires j < |uses| && IdentifyAll(s, uses[..j], keeps).Ok?
    requires Identify(IdentifyAll(s, uses[..j], keeps).value.0, uses[j], keeps).Err?
    ensures IdentifyAll(s, uses, keeps) == Err(Identify(IdentifyAll(s, uses[..j], keeps).value.0, uses[j], keeps).error)
  {
    hide Identify;
    IdentifyAllConcat(s, uses[..j], uses[j..], keeps);
    assert uses == uses[..j] + uses[j..] && uses[j..][0] == uses[j];
  }

  /** A context is refused for a base ID standing for two provider IDs exactly when it gave one of its uses, by
      generating or keeping it, a base ID that was already known, and a later use takes that ID up again for
      the provider ID it was known for. IDs the generator has not returned before rule this out. */
  lemma {:induction false} DuplicateMappingIff(ms: seq<Message>, previous: Ids, supply: seq<string>,
                                               keeps: string -> bool)
    ensures BaseContextMessages(ms, previous, supply, keeps) == Err(DuplicateMapping)
        <==> exists j :: 0 <= j < |Uses(ms)| && Clashes(ms, previous, supply, keeps, j)
  {
    hide Identify;
    hide Traced;
    hide Reused;
    var s, uses := Begin(previous, supply), Uses(ms);
    BeginTraced(previous, supply);
    if IdentifyAll(s, uses, keeps) == Err(DuplicateMapping) {
      var j := FirstFailure(s, uses, keeps);
      ClashesIff(ms, previous, supply, keeps, j);
    }
    if j :| 0 <= j < |uses| && Clashes(ms, previous, supply, keeps, j) {
      ClashesIff(ms, previous, supply, keeps, j);
      FailureStops(s, uses, keeps, j);
    }
  }

  lemma {:induction false} ClashesMeans(ms: seq<Message>, previous: Ids, supply: seq<string>, keeps: string -> bool,
                                        j: nat)
    requires j < |Uses(ms)|
    requires var r := IdentifyAll(Begin(previous, supply), Uses(ms)[..j], keeps); r.Ok? && |r.value.1| == j
    ensures var (t, ids) := IdentifyAll(Begin(previous, supply), Uses(ms)[..j], keeps).value;
            Clashes(ms, previous, supply, keeps, j) <==> Retaken(t, Uses(ms)[j], previous.names, Uses(ms)[..j], ids)
  {
    hide IdentifyAll;
    hide Retaken;
  }

  lemma {:induction false} ClashesIff(ms: seq<Message>, previous: Ids, supply: seq<string>, keeps: string -> bool,
                                      j: nat)
    requires j < |Uses(ms)| && IdentifyAll(Begin(previous, supply), Uses(ms)[..j], keeps).Ok?
    ensures Clashes(ms, previous, supply, keeps, j)
        <==> Identify(IdentifyAll(Begin(previous, supply), Uses(ms)[..j], keeps).value.0, Uses(ms)[j], keeps)
             == Err(DuplicateMapping)
  {
    hide *;
    var s, uses := Begin(previous, supply), Uses(ms);
    BeginTraced(previous, supply);
    AllTraced(s, uses[..j], keeps, previous.names, [], []);
    var (t, ids) := IdentifyAll(s, uses[..j], keeps).value;
    assert [] + uses[..j] == uses[..j] && [] + ids == ids;
    IdentifyAllLength(s, uses[..j], keeps);
    DuplicateStep(t, uses[j], keeps, previous.names, uses[..j], ids);
    ClashesMeans(ms, previous, supply, keeps, j);
  }
}
