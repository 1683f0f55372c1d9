/** Tool identities of one response while it streams (AgentProviderContext.ts, baseSessionEvent). */
module ProviderStream {
  import opened Basics

  /** `Part` is any later event of a call: its deltas, its end, and the events of its result. */
  datatype Event = CallStart(callId: string) | Part(callId: string) | BlockReset | Other

  datatype Failure = DuplicateCall | UnknownCall | OutOfIds

  /** `response` maps the provider IDs of this response to base IDs, `context` base IDs to provider IDs, and
      `supply` is what the ID generator returns next. */
  datatype State = State(response: map<string, string>, context: map<string, string>, supply: seq<string>)

  /** The state after an event and the base ID the event carries on. */
  function Translate(s: State, e: Event, persisted: set<string>): Result<(State, Option<string>), Failure> {
    match e
    case BlockReset =>
      var gone := set c | c in s.response && s.response[c] !in persisted :: s.response[c];
      Ok((s.(response := map[], context := s.context - gone), None))
    case CallStart(callId) =>
      if callId in s.response then Err(DuplicateCall)
      else if s.supply == [] then Err(OutOfIds)
      else
        var id := s.supply[0];
        Ok((State(s.response[callId := id], s.context[id := callId], s.supply[1..]), Some(id)))
    case Part(callId) =>
      if callId in s.response then Ok((s, Some(s.response[callId]))) else Err(UnknownCall)
    case Other => Ok((s, None))
  }

  /** An event that was translated under the set of identities persisted by then. */
  datatype Seen = Seen(event: Event, persisted: set<string>, id: Option<string>)

  /** Every event of a stream in turn; a failure ends the response. */
  function TranslateAll(s: State, events: seq<(Event, set<string>)>): Result<(State, seq<Seen>), Failure>
    decreases |events|
  {
    if events == [] then Ok((s, []))
    else
      match Translate(s, events[0].0, events[0].1)
      case Err(e) => Err(e)
      case Ok((t, id)) =>
        match TranslateAll(t, events[1..])
        case Err(e) => Err(e)
        case Ok((end, seen)) => Ok((end, [Seen(events[0].0, events[0].1, id)] + seen))
  }

  class ResponseIds {
    var responseToolIds: map<string, string>
    var contextToolIds: map<string, string>
    var supply: seq<string>

    ghost function Now(): State
      reads this
    {
      State(responseToolIds, contextToolIds, supply)
    }

    constructor (context: map<string, string>, supply: seq<string>)
      ensures Now() == State(map[], context, supply)
    {
      responseToolIds, contextToolIds, this.supply := map[], context, supply;
    }

    method BaseSessionEvent(e: Event, persisted: set<string>) returns (r: Result<Option<string>, Failure>)
      modifies this
      ensures match Translate(old(Now()), e, persisted)
              case Err(f) => r == Err(f) && Now() == old(Now())
              case Ok((t, id)) => r == Ok(id) && Now() == t
    {
      match e
      case BlockReset =>
        var left := responseToolIds.Keys;
        ghost var gone: set<string> := {};
        while left != {}
          invariant left <= responseToolIds.Keys && responseToolIds == old(responseToolIds) && supply == old(supply)
          invariant gone == set c | c in responseToolIds && c !in left && responseToolIds[c] !in persisted
                              :: responseToolIds[c]
          invariant contextToolIds == old(contextToolIds) - gone
          decreases |left|
        {
          var c :| c in left;
          left := left - {c};
          if responseToolIds[c] !in persisted {
            contextToolIds := contextToolIds - {responseToolIds[c]};
            gone := gone + {responseToolIds[c]};
          }
        }
        responseToolIds := map[];
        r := Ok(None);
      case CallStart(callId) =>
        if callId in responseToolIds {
          return Err(DuplicateCall);
        }
        if |supply| == 0 {
          return Err(OutOfIds);
        }
        var id := supply[0];
        supply := supply[1..];
        responseToolIds := responseToolIds[callId := id];
        contextToolIds := contextToolIds[id := callId];
        r := Ok(Some(id));
      case Part(callId) =>
        if callId in responseToolIds {
          r := Ok(Some(responseToolIds[callId]));
        } else {
          r := Err(UnknownCall);
        }
      case Other =>
        r := Ok(None);
    }
  }

  /** Open calls have base IDs of their own, each standing for its provider ID in the context, and the
      generator will return none of the IDs in use. */
  predicate Linked(s: State) {
    && (forall c :: c in s.response ==> s.response[c] in s.context && s.context[s.response[c]] == c)
    && (forall i :: 0 <= i < |s.supply| ==> s.supply[i] !in s.context)
    && (forall i, j :: 0 <= i < j < |s.supply| ==> s.supply[i] != s.supply[j])
  }

  lemma {:induction false} TranslateLinked(s: State, e: Event, persisted: set<string>)
    requires Linked(s)
    ensures var r := Translate(s, e, persisted);
            r.Ok? ==>
              && Linked(r.value.0)
              && (forall id :: id in s.context && (id in persisted || !e.BlockReset?) ==>
                    id in r.value.0.context && r.value.0.context[id] == s.context[id])
              && (r.value.1.Some? ==>
                    r.value.1.value in r.value.0.context && r.value.0.context[r.value.1.value] == e.callId)
  {
  }

  /** An ID that is persisted whenever a reset comes. */
  predicate AlwaysPersisted(events: seq<(Event, set<string>)>, id: string) {
    forall k :: 0 <= k < |events| && events[k].0.BlockReset? ==> id in events[k].1
  }

  predicate NoReset(events: seq<(Event, set<string>)>) {
    forall k :: 0 <= k < |events| ==> !events[k].0.BlockReset?
  }

  /** A mapping survives every reset it was persisted for. */
  lemma {:induction false} PersistedSurvives(s: State, events: seq<(Event, set<string>)>, id: string)
    requires Linked(s) && id in s.context && AlwaysPersisted(events, id)
    ensures var r := TranslateAll(s, events);
            r.Ok? ==> id in r.value.0.context && r.value.0.context[id] == s.context[id]
    decreases |events|
  {
    if events != [] {
      TranslateLinked(s, events[0].0, events[0].1);
      hide Linked;
      match Translate(s, events[0].0, events[0].1)
      case Err(_) =>
      case Ok((t, _)) => PersistedSurvives(t, events[1..], id);
    }
  }

  /** While no reset comes between, every event of an open call carries the base ID its start was given. */
  lemma {:induction false} CallKeepsItsId(s: State, events: seq<(Event, set<string>)>, callId: string)
    requires Linked(s) && callId in s.response && NoReset(events)
    ensures var r := TranslateAll(s, events);
            r.Ok? ==>
              forall k :: 0 <= k < |r.value.1| && r.value.1[k].event == Part(callId) ==>
                r.value.1[k].id == Some(s.response[callId])
    decreases |events|
  {
    if events != [] {
      TranslateLinked(s, events[0].0, events[0].1);
      match Translate(s, events[0].0, events[0].1)
      case Err(_) =>
      case Ok((t, _)) =>
        assert t.response[callId] == s.response[callId];
        CallKeepsItsId(t, events[1..], callId);
    }
  }

  /** Two open calls never share a base ID. */
  lemma {:induction false} OpenCallsDiffer(s: State, events: seq<(Event, set<string>)>, a: string, b: string)
    requires Linked(s)
    ensures var r := TranslateAll(s, events);
            r.Ok? && a in r.value.0.response && b in r.value.0.response && a != b ==>
              r.value.0.response[a] != r.value.0.response[b]
    decreases |events|
  {
    if events != [] {
      TranslateLinked(s, events[0].0, events[0].1);
      match Translate(s, events[0].0, events[0].1)
      case Err(_) =>
      case Ok((t, _)) => OpenCallsDiffer(t, events[1..], a, b);
    } else if a in s.response && b in s.response && a != b {
      assert s.context[s.response[a]] == a && s.context[s.response[b]] == b;
    }
  }

  // ----- What a response leaves behind -----

  /** The first reset after the start of a call, if there is one, finds its base ID persisted. */
  predicate Spared(events: seq<(Event, set<string>)>, id: string)
    decreases |events|
  {
    if events == [] then true
    else if events[0].0.BlockReset? then id in events[0].1
    else Spared(events[1..], id)
  }

  /** Event `k` started a call under this base ID, which no reset forgot. */
  predicate StartedAndSpared(events: seq<(Event, set<string>)>, seen: seq<Seen>, k: nat, id: string) {
    k < |events| == |seen| && seen[k].event.CallStart? && seen[k].id == Some(id) && Spared(events[k + 1..], id)
  }

  /** Known before, and not of a call that is open when an unpersisted reset comes. */
  predicate KnownAndSpared(s: State, events: seq<(Event, set<string>)>, id: string) {
    id in s.context && (id in s.response.Values ==> Spared(events, id))
  }

  lemma {:induction false} SeenLength(s: State, events: seq<(Event, set<string>)>)
    ensures var r := TranslateAll(s, events);
            r.Ok? ==> |r.value.1| == |events| && forall k :: 0 <= k < |events| ==> r.value.1[k].event == events[k].0
    decreases |events|
  {
    if events != [] {
      match Translate(s, events[0].0, events[0].1)
      case Err(_) =>
      case Ok((t, _)) => SeenLength(t, events[1..]);
    }
  }

  /** The first event of a stream, and the later ones one place on. */
  lemma {:induction false} StartsShift(events: seq<(Event, set<string>)>, seen: seq<Seen>, id: string)
    requires events != [] && |events| == |seen|
    ensures (exists k :: StartedAndSpared(events, seen, k, id))
       <==> StartedAndSpared(events, seen, 0, id) || exists k :: StartedAndSpared(events[1..], seen[1..], k, id)
  {
    if k: nat :| StartedAndSpared(events, seen, k, id) && k > 0 {
      assert events[k + 1..] == events[1..][k..];
      assert StartedAndSpared(events[1..], seen[1..], k - 1, id);
    }
    if k: nat :| StartedAndSpared(events[1..], seen[1..], k, id) {
      assert events[k + 2..] == events[1..][k + 1..];
      assert StartedAndSpared(events, seen, k + 1, id);
    }
  }

  lemma {:induction false} TranslateKnown(s: State, e: Event, persisted: set<string>, rest: seq<(Event, set<string>)>,
                                          id: string)
    requires Linked(s) && Translate(s, e, persisted).Ok?
    ensures var (t, given) := Translate(s, e, persisted).value;
            KnownAndSpared(t, rest, id)
            <==> (if e.BlockReset? then id in s.context && (id in s.response.Values ==> id in persisted)
                  else KnownAndSpared(s, rest, id) || (e.CallStart? && given == Some(id) && Spared(rest, id)))
  {
    if e.CallStart? {
      var t := Translate(s, e, persisted).value.0;
      var new_ := s.supply[0];
      assert t.response.Values == s.response.Values + {new_} by {
        assert forall c :: c in s.response ==> t.response[c] == s.response[c];
        assert t.response[e.callId] == new_;
      }
    }
  }

  /** A base ID has a mapping after a stream exactly when it had one and no reset took it back, or a call of the
      stream started under it and the first reset after that, if any, found it persisted. A mapping that stands
      is never changed. */
  lemma {:induction false} ContextIff(s: State, events: seq<(Event, set<string>)>, id: string)
    requires Linked(s)
    ensures var r := TranslateAll(s, events);
            r.Ok? ==>
              && |r.value.1| == |events|
              && (id in r.value.0.context
                  <==> KnownAndSpared(s, events, id) || exists k :: StartedAndSpared(events, r.value.1, k, id))
              && (id in r.value.0.context && id in s.context ==> r.value.0.context[id] == s.context[id])
    decreases |events|
  {
    if events != [] && TranslateAll(s, events).Ok? {
      hide Linked;
      var (e, persisted) := events[0];
      var (t, given) := Translate(s, e, persisted).value;
      TranslateLinked(s, e, persisted);
      TranslateKnown(s, e, persisted, events[1..], id);
      ContextIff(t, events[1..], id);
      SeenLength(s, events);
      var seen := TranslateAll(s, events).value.1;
      assert seen[1..] == TranslateAll(t, events[1..]).value.1;
      assert events[0 + 1..] == events[1..];
      StartsShift(events, seen, id);
      if id in s.context { NotGivenAgain(s, e, persisted, events[1..], id); }
    }
  }

  /** No start is given a base ID that is in the context, or was when its mapping was taken back. */
  lemma {:induction false} NotGivenAgain(s: State, e: Event, persisted: set<string>, rest: seq<(Event, set<string>)>,
                                         id: string)
    requires Linked(s) && id in s.context && Translate(s, e, persisted).Ok?
    ensures var (t, given) := Translate(s, e, persisted).value;
            && (e.CallStart? ==> given != Some(id))
            && (id in t.context ==> t.context[id] == s.context[id])
            && (id !in t.context ==> TranslateAll(t, rest).Ok? ==> id !in TranslateAll(t, rest).value.0.context)
  {
    var t := Translate(s, e, persisted).value.0;
    if id !in t.context && TranslateAll(t, rest).Ok? { GoneStaysGone(t, rest, id); }
  }

  lemma {:induction false} GoneStaysGone(s: State, events: seq<(Event, set<string>)>, id: string)
    requires id !in s.context && (forall i :: 0 <= i < |s.supply| ==> s.supply[i] != id) && TranslateAll(s, events).Ok?
    ensures id !in TranslateAll(s, events).value.0.context
    decreases |events|
  {
    if events != [] { GoneStaysGone(Translate(s, events[0].0, events[0].1).value.0, events[1..], id); }
  }

  /** A call is open: started since the last reset, or open before and no reset came. */
  predicate Opened(events: seq<(Event, set<string>)>, callId: string, before: bool)
    decreases |events|
  {
    if events == [] then before
    else if events[|events| - 1].0.BlockReset? then false
    else events[|events| - 1].0 == CallStart(callId) || Opened(events[..|events| - 1], callId, before)
  }

  lemma {:induction false} TranslateAllSnoc(s: State, events: seq<(Event, set<string>)>, last: (Event, set<string>))
    ensures TranslateAll(s, events + [last]).Ok?
       <==> TranslateAll(s, events).Ok? && Translate(TranslateAll(s, events).value.0, last.0, last.1).Ok?
    ensures TranslateAll(s, events + [last]).Ok? ==>
              TranslateAll(s, events + [last]).value.0
              == Translate(TranslateAll(s, events).value.0, last.0, last.1).value.0
    decreases |events|
  {
    hide Translate;
    if events == [] {
      assert [] + [last] == [last] && [last][1..] == [];
      if Translate(s, last.0, last.1).Ok? {
        assert TranslateAll(Translate(s, last.0, last.1).value.0, [last][1..]).Ok?;
      }
    } else {
      assert (events + [last])[0] == events[0] && (events + [last])[1..] == events[1..] + [last];
      if Translate(s, events[0].0, events[0].1).Ok? {
        TranslateAllSnoc(Translate(s, events[0].0, events[0].1).value.0, events[1..], last);
      }
    }
  }

  lemma {:induction false} OpenIff(s: State, events: seq<(Event, set<string>)>, callId: string)
    requires TranslateAll(s, events).Ok?
    ensures callId in TranslateAll(s, events).value.0.response <==> Opened(events, callId, callId in s.response)
    decreases |events|
  {
    if events != [] {
      var n := |events| - 1;
      assert events == events[..n] + [events[n]];
      TranslateAllSnoc(s, events[..n], events[n]);
      OpenIff(s, events[..n], callId);
    }
  }

  /** While the generator has IDs, an event is refused exactly when it starts a call that is open, or is a part
      of one that is not. */
  lemma {:induction false} RefusedIff(s: State, events: seq<(Event, set<string>)>, e: Event, persisted: set<string>)
    requires TranslateAll(s, events).Ok? && TranslateAll(s, events).value.0.supply != []
    ensures TranslateAll(s, events + [(e, persisted)]).Err?
       <==> match e
            case CallStart(c) => Opened(events, c, c in s.response)
            case Part(c) => !Opened(events, c, c in s.response)
            case _ => false
  {
    TranslateAllSnoc(s, events, (e, persisted));
    if e.CallStart? || e.Part? { OpenIff(s, events, e.callId); }
  }
}
