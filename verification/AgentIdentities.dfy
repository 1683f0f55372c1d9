/**
 * The identities of the messages an agent accepted: each is held once, in a queue or in history, until a
 * history replacement forgets it.
 */
module AgentIdentities {
  import opened Basics
  import opened AgentQueue

  function Times(s: seq<string>, id: string): nat {
    if s == [] then 0 else (if s[0] == id then 1 else 0) + Times(s[1..], id)
  }

  lemma {:induction false} TimesConcat(a: seq<string>, b: seq<string>, id: string)
    ensures Times(a + b, id) == Times(a, id) + Times(b, id)
  {
    if a == [] {
      assert a + b == b;
    } else {
      TimesConcat(a[1..], b, id);
      assert (a + b)[1..] == a[1..] + b;
    }
  }

  /** How often a message is held, queued or in history. */
  function Held(s: Store, id: string): nat { Times(QueueIds(s.queue), id) + Times(UserIds(s.log), id) }

  /** The identities on record are exactly the messages held, and each is held once. */
  ghost predicate Identified(s: Store) {
    forall id :: Held(s, id) == if id in s.messages then 1 else 0
  }

  lemma {:induction false} AcceptOneIdentified(s: Store, r: Request)
    requires Identified(s)
    ensures Identified(AcceptOne(s, r))
  {
    var t := AcceptOne(s, r);
    if t != s {
      assert QueueIds(t.queue) == QueueIds(s.queue) + [r.id];
      forall id ensures Held(t, id) == if id in t.messages then 1 else 0 {
        TimesConcat(QueueIds(s.queue), [r.id], id);
        assert [r.id][1..] == [];
        assert Held(s, id) == if id in s.messages then 1 else 0;
      }
    }
  }

  lemma {:induction false} AcceptAllIdentified(s: Store, batch: seq<Request>)
    requires Identified(s)
    ensures Identified(AcceptAll(s, batch))
    decreases |batch|
  {
    if batch != [] {
      AcceptOneIdentified(s, batch[0]);
      AcceptAllIdentified(AcceptOne(s, batch[0]), batch[1..]);
    }
  }

  lemma {:induction false} TimesIn(s: seq<string>, id: string)
    ensures Times(s, id) > 0 <==> id in s
  {
    if s != [] { TimesIn(s[1..], id); }
  }

  lemma {:induction false} EraseIdentified(s: Store, more: seq<string>)
    requires forall id :: Held(s, id) + Times(more, id) == if id in s.messages then 1 else 0
    ensures var t := EraseHistory(s);
            forall id :: Held(t, id) + Times(more, id) == if id in t.messages then 1 else 0
  {
    var t := EraseHistory(s);
    forall id ensures Held(t, id) + Times(more, id) == if id in t.messages then 1 else 0 {
      TimesIn(UserIds(s.log), id);
      assert Held(s, id) + Times(more, id) == if id in s.messages then 1 else 0;
    }
  }

  lemma {:induction false} TakenTimes(queue: seq<Entry>, kind: Kind, count: nat, id: string)
    ensures Times(QueueIds(Taken(queue, kind, count)), id) + Times(QueueIds(Remaining(queue, kind, count)), id)
         == Times(QueueIds(queue), id)
  {
    if queue != [] && count > 0 {
      var e, rest := queue[0], queue[1..];
      QueueIdsCons(e, rest);
      if e.kind == kind {
        TakenTimes(rest, kind, count - 1, id);
        QueueIdsCons(e, Taken(rest, kind, count - 1));
      } else {
        TakenTimes(rest, kind, count, id);
        QueueIdsCons(e, Remaining(rest, kind, count));
      }
      assert queue == [e] + rest;
    } else {
      assert QueueIds([]) == [];
    }
  }

  lemma {:induction false} QueueIdsCons(e: Entry, rest: seq<Entry>)
    ensures forall id :: Times(QueueIds([e] + rest), id) == (if e.id == id then 1 else 0) + Times(QueueIds(rest), id)
  {
    assert QueueIds([e] + rest) == [e.id] + QueueIds(rest);
    assert ([e.id] + QueueIds(rest))[1..] == QueueIds(rest);
  }

  lemma {:induction false} UserRecordsIds(batch: seq<Entry>)
    ensures UserIds(UserRecords(batch)) == QueueIds(batch)
  {
    if batch != [] {
      UserRecordsIds(batch[1..]);
      assert UserRecords(batch)[1..] == UserRecords(batch[1..]);
      assert QueueIds(batch) == [batch[0].id] + QueueIds(batch[1..]);
    }
  }

  lemma {:induction false} LoggedIds(log: seq<Record>, opening: seq<Record>, batch: seq<Entry>)
    requires opening == [] || opening == [OtherRecord]
    ensures UserIds(log + opening + UserRecords(batch)) == UserIds(log) + QueueIds(batch)
  {
    assert [OtherRecord][1..] == [] && UserIds(opening) == [];
    assert UserIds(log) + [] == UserIds(log);
    UserIdsConcat(log + opening, UserRecords(batch));
    UserIdsConcat(log, opening);
    UserRecordsIds(batch);
  }

  /** The queue without the batch, which is still counted apart. */
  lemma {:induction false} TakenIdentified(s: Store, kind: Kind, count: nat)
    requires Identified(s)
    ensures var t := s.(queue := Remaining(s.queue, kind, count));
            forall id :: Held(t, id) + Times(QueueIds(Taken(s.queue, kind, count)), id)
                         == if id in t.messages then 1 else 0
  {
    var t := s.(queue := Remaining(s.queue, kind, count));
    forall id
      ensures Held(t, id) + Times(QueueIds(Taken(s.queue, kind, count)), id) == if id in t.messages then 1 else 0 {
      TakenTimes(s.queue, kind, count, id);
      assert Held(s, id) == if id in s.messages then 1 else 0;
    }
  }

  lemma {:induction false} LoggedIdentified(t: Store, u: Store, ids: seq<string>)
    requires forall id :: Held(t, id) + Times(ids, id) == if id in t.messages then 1 else 0
    requires u.queue == t.queue && u.messages == t.messages && UserIds(u.log) == UserIds(t.log) + ids
    ensures Identified(u)
  {
    forall id ensures Held(u, id) == if id in u.messages then 1 else 0 {
      TimesConcat(UserIds(t.log), ids, id);
      assert Held(t, id) + Times(ids, id) == if id in t.messages then 1 else 0;
    }
  }

  /** Consuming moves the batch from the queue to the end of the log, in order. */
  lemma {:induction false} ConsumeIdentified(a: Agent, kind: Kind, count: nat, reset: bool, handoff: bool)
    requires Identified(a.store)
    ensures Identified(Consume(a, kind, count, reset, handoff).store)
    ensures var batch := Taken(a.store.queue, kind, count);
            batch != [] && reset ==> UserIds(Consume(a, kind, count, reset, handoff).store.log) == QueueIds(batch)
    ensures var after := UserIds(Consume(a, kind, count, reset, handoff).store.log);
            !reset ==> after == UserIds(a.store.log) + QueueIds(Taken(a.store.queue, kind, count))
  {
    hide Identified;
    hide Held;
    hide Taken;
    hide Remaining;
    hide QueueIds;
    hide UserRecords;
    var batch := Taken(a.store.queue, kind, count);
    if batch == [] {
      assert QueueIds(batch) == [] by { NoIds(); }
      assert UserIds(a.store.log) + [] == UserIds(a.store.log);
    } else {
      var s := a.store.(queue := Remaining(a.store.queue, kind, count));
      var t := if reset then EraseHistory(s) else s;
      TakenIdentified(a.store, kind, count);
      EraseIdentified(s, QueueIds(batch));
      LoggedIds(t.log, if reset && handoff then [OtherRecord] else [], batch);
      LoggedIdentified(t, Consume(a, kind, count, reset, handoff).store, QueueIds(batch));
      assert [] + QueueIds(batch) == QueueIds(batch);
    }
  }

  lemma {:induction false} NoIds()
    ensures QueueIds([]) == []
  {
  }

  lemma {:induction false} OtherRecordIdentified(s: Store)
    requires Identified(s)
    ensures Identified(s.(log := s.log + [OtherRecord]))
  {
    UserIdsConcat(s.log, [OtherRecord]);
    assert [OtherRecord][1..] == [] && UserIds([OtherRecord]) == [];
    assert UserIds(s.log) + [] == UserIds(s.log);
    forall id ensures Held(s.(log := s.log + [OtherRecord]), id) == if id in s.messages then 1 else 0 {
      assert Held(s, id) == if id in s.messages then 1 else 0;
    }
  }

  lemma {:induction false} ReplaceIdentified(s: Store)
    requires Identified(s)
    ensures Identified(EraseHistory(s).(log := [OtherRecord]))
  {
    forall id ensures Held(s, id) + Times([], id) == if id in s.messages then 1 else 0 {
    }
    EraseIdentified(s, []);
    var t := EraseHistory(s);
    assert [OtherRecord][1..] == [] && UserIds([OtherRecord]) == [];
    forall id ensures Held(t.(log := [OtherRecord]), id) == if id in t.messages then 1 else 0 {
      assert Held(t, id) + Times([], id) == if id in t.messages then 1 else 0;
    }
  }

  /** Only these parts of the store matter to identities. */
  lemma {:induction false} SameIdentified(s: Store, t: Store)
    requires Identified(s) && t.queue == s.queue && t.log == s.log && t.messages == s.messages
    ensures Identified(t)
  {
    forall id ensures Held(t, id) == if id in t.messages then 1 else 0 {
      assert Held(s, id) == if id in s.messages then 1 else 0;
    }
  }

  lemma {:induction false} StepIdentified(a: Agent, x: Action)
    requires Identified(a.store)
    ensures Identified(Step(a, x).store)
  {
    var t := Step(a, x).store;
    match x
    case Offers(batch) =>
      AcceptAllIdentified(a.store, batch);
      SameIdentified(if t == a.store then t else AcceptAll(a.store, batch), t);
    case OffersInTransaction(batch, _) =>
      AcceptAllIdentified(a.store, batch);
      SameIdentified(if t == a.store then t else AcceptAll(a.store, batch), t);
    case TakesNotices =>
      OtherRecordIdentified(a.store);
      SameIdentified(if t.log == a.store.log then a.store else a.store.(log := a.store.log + [OtherRecord]), t);
    case Records => OtherRecordIdentified(a.store);
    case Consumes(kind, count, reset, handoff) => ConsumeIdentified(a, kind, count, reset, handoff);
    case Replaces(_) =>
      ReplaceIdentified(a.store);
      SameIdentified(EraseHistory(a.store).(log := [OtherRecord]), t);
    case _ => SameIdentified(a.store, t);
  }

  lemma {:induction false} MoveIdentified(p: Process, m: Move)
    requires Identified(p.agent.store)
    ensures Identified(Apply(p, m).agent.store)
  {
    hide Step;
    hide Identified;
    match m
    case Does(x) => StepIdentified(p.agent, x);
    case Commits => if p.waiting != [] { StepIdentified(p.agent, p.waiting[0].work); }
    case _ =>
  }

  lemma {:induction false} RunIdentified(p: Process, moves: seq<Move>)
    requires Identified(p.agent.store)
    ensures Identified(Run(p, moves).agent.store)
    decreases |moves|
  {
    hide Apply;
    hide Identified;
    if moves != [] {
      MoveIdentified(p, moves[0]);
      RunIdentified(Apply(p, moves[0]), moves[1..]);
    }
  }

  /** After every transaction an identity is on record exactly when its message is queued or in history, and
      then it is in one of the two, once. */
  lemma {:induction false} EachMessageHeldOnce(moves: seq<Move>, id: string)
    ensures var s := Run(LAUNCH, moves).agent.store;
            && Times(QueueIds(s.queue), id) + Times(UserIds(s.log), id) == (if id in s.messages then 1 else 0)
            && (id in s.messages <==> id in QueueIds(s.queue) || id in UserIds(s.log))
  {
    RunIdentified(LAUNCH, moves);
    var s := Run(LAUNCH, moves).agent.store;
    assert Held(s, id) == if id in s.messages then 1 else 0;
    TimesIn(QueueIds(s.queue), id);
    TimesIn(UserIds(s.log), id);
  }

  /** A repeated identity is accepted again exactly when its message is no longer held, which only erasing
      history brings about. */
  lemma {:induction false} RetryIsAcceptedIff(moves: seq<Move>, r: Request, x: Action)
    ensures var a := Run(LAUNCH, moves).agent;
            && (AcceptOne(a.store, r) != a.store
                <==> r.id !in QueueIds(a.store.queue) && r.id !in UserIds(a.store.log))
            && (r.id in a.store.messages && r.id !in Step(a, x).store.messages ==>
                  r.id in UserIds(a.store.log) && (x.Replaces? || (x.Consumes? && x.reset)))
  {
    EachMessageHeldOnce(moves, r.id);
    var a := Run(LAUNCH, moves).agent;
    if x.Offers? || x.OffersInTransaction? { AcceptKeeps(a.store, x.batch, r.id); }
  }

  lemma {:induction false} AcceptKeeps(s: Store, batch: seq<Request>, id: string)
    ensures id in s.messages ==> id in AcceptAll(s, batch).messages
    decreases |batch|
  {
    if batch != [] { AcceptKeeps(AcceptOne(s, batch[0]), batch[1..], id); }
  }
}
