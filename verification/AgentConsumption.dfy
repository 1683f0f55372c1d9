/**
 * What is accepted into the queues of an agent and what is moved from them into history, said by the keys of
 * the entries (AgentBase.ts).
 */
module AgentConsumption {
  import opened Basics
  import opened AgentQueue
  import opened AgentSettlement

  // ----- Queues in key order -----

  predicate Rising(queue: seq<Entry>) { forall i, j :: 0 <= i < j < |queue| ==> queue[i].key < queue[j].key }

  /** Entries stand in the order of their keys, and the next key is larger than all of them. */
  predicate Ordered(s: Store) {
    Rising(s.queue) && forall i :: 0 <= i < |s.queue| ==> s.queue[i].key < s.next
  }

  /** `part` are entries of `queue`, in the order they have there. */
  predicate Within(part: seq<Entry>, queue: seq<Entry>) { Rising(part) && forall e :: e in part ==> e in queue }

  lemma {:induction false} RisingRest(queue: seq<Entry>)
    requires Rising(queue) && queue != []
    ensures Rising(queue[1..]) && forall e :: e in queue[1..] ==> queue[0].key < e.key
  {
  }

  lemma {:induction false} RisingCons(e: Entry, rest: seq<Entry>)
    requires Rising(rest) && forall f :: f in rest ==> e.key < f.key
    ensures Rising([e] + rest)
  {
    forall i, j | 0 <= i < j < |[e] + rest| ensures ([e] + rest)[i].key < ([e] + rest)[j].key {
      assert rest[j - 1] in rest;
    }
  }

  /** The same key is the same entry. */
  lemma {:induction false} KeysDiffer(queue: seq<Entry>, e: Entry, f: Entry)
    requires Rising(queue) && e in queue && f in queue && e.key == f.key
    ensures e == f
  {
    var i :| 0 <= i < |queue| && queue[i] == e;
    var j :| 0 <= j < |queue| && queue[j] == f;
  }

  function OfKind(queue: seq<Entry>, kind: Kind): nat {
    if queue == [] then 0 else (if queue[0].kind == kind then 1 else 0) + OfKind(queue[1..], kind)
  }

  // ----- What is moved -----

  lemma {:induction false} TakenWithin(queue: seq<Entry>, kind: Kind, count: nat)
    requires Rising(queue)
    ensures var moved := Taken(queue, kind, count);
            && Within(moved, queue) && |moved| == Min(count, OfKind(queue, kind))
            && forall e :: e in moved ==> e.kind == kind
  {
    if queue != [] && count > 0 {
      RisingRest(queue);
      if queue[0].kind == kind {
        TakenWithin(queue[1..], kind, count - 1);
        RisingCons(queue[0], Taken(queue[1..], kind, count - 1));
      } else {
        TakenWithin(queue[1..], kind, count);
      }
    }
  }

  lemma {:induction false} RemainingWithin(queue: seq<Entry>, kind: Kind, count: nat)
    requires Rising(queue)
    ensures Within(Remaining(queue, kind, count), queue)
  {
    if queue != [] && count > 0 {
      RisingRest(queue);
      if queue[0].kind == kind {
        RemainingWithin(queue[1..], kind, count - 1);
      } else {
        RemainingWithin(queue[1..], kind, count);
        RisingCons(queue[0], Remaining(queue[1..], kind, count));
      }
    }
  }

  /** An entry is moved or stays, and one of the kind that stays is younger than all that are moved. */
  lemma {:induction false} Splits(queue: seq<Entry>, kind: Kind, count: nat, e: Entry)
    requires Rising(queue) && e in queue
    ensures e in Taken(queue, kind, count) <==> e !in Remaining(queue, kind, count)
    ensures e in Remaining(queue, kind, count) && e.kind == kind ==>
              forall m :: m in Taken(queue, kind, count) ==> m.key < e.key
  {
    if count > 0 {
      var first, rest := queue[0], queue[1..];
      RisingRest(queue);
      var less := if first.kind == kind then count - 1 else count;
      TakenWithin(rest, kind, less);
      RemainingWithin(rest, kind, less);
      if e in rest { Splits(rest, kind, less, e); }
    }
  }

  // ----- Over runs -----

  lemma {:induction false} AcceptOneOrdered(s: Store, r: Request)
    requires Ordered(s)
    ensures Ordered(AcceptOne(s, r))
  {
  }

  lemma {:induction false} AcceptAllOrdered(s: Store, batch: seq<Request>)
    requires Ordered(s)
    ensures Ordered(AcceptAll(s, batch))
    decreases |batch|
  {
    if batch != [] {
      AcceptOneOrdered(s, batch[0]);
      AcceptAllOrdered(AcceptOne(s, batch[0]), batch[1..]);
    }
  }

  lemma {:induction false} ConsumeOrdered(a: Agent, kind: Kind, count: nat, reset: bool, handoff: bool)
    requires Ordered(a.store)
    ensures Ordered(Consume(a, kind, count, reset, handoff).store)
  {
    RemainingWithin(a.store.queue, kind, count);
    var rest := Remaining(a.store.queue, kind, count);
    forall i | 0 <= i < |rest| ensures rest[i].key < a.store.next {
      assert rest[i] in rest && rest[i] in a.store.queue;
    }
  }

  lemma {:induction false} StepOrdered(a: Agent, x: Action)
    requires Ordered(a.store)
    ensures Ordered(Step(a, x).store)
  {
    match x
    case Offers(batch) => AcceptAllOrdered(a.store, batch);
    case OffersInTransaction(batch, _) => AcceptAllOrdered(a.store, batch);
    case Consumes(kind, count, reset, handoff) => ConsumeOrdered(a, kind, count, reset, handoff);
    case _ =>
  }

  lemma {:induction false} RunOrdered(p: Process, moves: seq<Move>)
    requires Ordered(p.agent.store)
    ensures Ordered(Run(p, moves).agent.store)
    decreases |moves|
  {
    hide Step;
    hide Ordered;
    if moves != [] {
      match moves[0] {
        case Does(x) => StepOrdered(p.agent, x);
        case Commits => if p.waiting != [] { StepOrdered(p.agent, p.waiting[0].work); }
        case _ =>
      }
      RunOrdered(Apply(p, moves[0]), moves[1..]);
    }
  }

  /** The log from `from` on is the messages of `batch`, in order. */
  predicate Logs(log: seq<Record>, from: nat, batch: seq<Entry>) {
    |log| == from + |batch| && forall i :: 0 <= i < |batch| ==> log[from + i] == UserRecord(batch[i].id)
  }

  /** Of `queue`, `moved` are the oldest entries of the kind, as many as there are up to `count`, and `rest` are
      all the others, both in order. */
  predicate OldestMoved(queue: seq<Entry>, kind: Kind, count: nat, moved: seq<Entry>, rest: seq<Entry>) {
    && |moved| == Min(count, OfKind(queue, kind)) && Within(moved, queue) && Within(rest, queue)
    && (forall e :: e in moved ==> e.kind == kind)
    && (forall e :: e in queue ==> (e in rest <==> e !in moved))
    && (forall e, m :: e in rest && e.kind == kind && m in moved ==> m.key < e.key)
  }

  lemma {:induction false} TakesOldest(queue: seq<Entry>, kind: Kind, count: nat)
    requires Rising(queue)
    ensures OldestMoved(queue, kind, count, Taken(queue, kind, count), Remaining(queue, kind, count))
  {
    hide Taken;
    hide Remaining;
    TakenWithin(queue, kind, count);
    RemainingWithin(queue, kind, count);
    var moved, rest := Taken(queue, kind, count), Remaining(queue, kind, count);
    forall e | e in queue
      ensures e in rest <==> e !in moved
      ensures e in rest && e.kind == kind ==> forall m :: m in moved ==> m.key < e.key
    {
      Splits(queue, kind, count, e);
    }
  }

  /** The log after the messages `batch` were moved into it. */
  predicate Opened(before: seq<Record>, reset: bool, handoff: bool, batch: seq<Entry>, after: seq<Record>) {
    if reset && batch != [] then
      var opening := if handoff then [OtherRecord] else [];
      opening <= after && Logs(after, |opening|, batch)
    else before <= after && Logs(after, |before|, batch)
  }

  lemma {:induction false} LogsAppended(before: seq<Record>, batch: seq<Entry>)
    ensures before <= before + UserRecords(batch) && Logs(before + UserRecords(batch), |before|, batch)
  {
  }

  lemma {:induction false} ConsumeOpens(a: Agent, kind: Kind, count: nat, reset: bool, handoff: bool)
    ensures var t, moved := Consume(a, kind, count, reset, handoff), Taken(a.store.queue, kind, count);
            t.store.queue == Remaining(a.store.queue, kind, count)
            && Opened(a.store.log, reset, handoff, moved, t.store.log)
  {
    hide Taken;
    hide Remaining;
    hide Logs;
    hide UserRecords;
    var batch := Taken(a.store.queue, kind, count);
    LogsAppended(a.store.log, batch);
    LogsAppended([OtherRecord], batch);
    var none: seq<Record> := [];
    LogsAppended(none, batch);
    assert none + [OtherRecord] == [OtherRecord] && none + none == none && a.store.log + none == a.store.log;
    if batch == [] {
      NothingTaken(a.store.queue, kind, count);
      assert UserRecords(batch) == [] by { NoRecords(); }
      assert a.store.log + UserRecords(batch) == a.store.log;
    }
  }

  lemma {:induction false} NoRecords()
    ensures UserRecords([]) == []
  {
  }

  /** Consuming moves the oldest messages of a kind to the end of history in the order they were accepted, and
      everything else stays queued; with a reset and something to move, history starts over, with the handoff
      before the messages. */
  lemma {:induction false} ConsumesOldest(moves: seq<Move>, kind: Kind, count: nat, reset: bool, handoff: bool)
    returns (moved: seq<Entry>)
    ensures var a := Run(LAUNCH, moves).agent;
            var t := Step(a, Consumes(kind, count, reset, handoff));
            && OldestMoved(a.store.queue, kind, count, moved, t.store.queue)
            && Opened(a.store.log, reset, handoff, moved, t.store.log)
  {
    RunOrdered(LAUNCH, moves);
    hide Run;
    hide Taken;
    hide Consume;
    hide OldestMoved;
    hide Opened;
    var a := Run(LAUNCH, moves).agent;
    moved := Taken(a.store.queue, kind, count);
    TakesOldest(a.store.queue, kind, count);
    ConsumeOpens(a, kind, count, reset, handoff);
  }

  lemma {:induction false} NothingTaken(queue: seq<Entry>, kind: Kind, count: nat)
    requires Taken(queue, kind, count) == []
    ensures Remaining(queue, kind, count) == queue
  {
    if queue != [] && count > 0 { NothingTaken(queue[1..], kind, count); }
  }

  // ----- What is accepted -----

  /** Request `i` is of an identity not on record and not earlier in the batch. */
  predicate New(s: Store, batch: seq<Request>, i: nat)
    requires i < |batch|
  {
    batch[i].id !in s.messages && forall k :: 0 <= k < i ==> batch[k].id != batch[i].id
  }

  /** The requests of a batch that are new, in order. */
  function NewOnes(s: Store, batch: seq<Request>): (r: seq<Request>) {
    if batch == [] then []
    else
      var n := |batch| - 1;
      NewOnes(s, batch[..n]) + if New(s, batch, n) then [batch[n]] else []
  }

  lemma {:induction false} AcceptAllSnoc(s: Store, batch: seq<Request>, last: Request)
    ensures AcceptAll(s, batch + [last]) == AcceptOne(AcceptAll(s, batch), last)
    decreases |batch|
  {
    if batch == [] {
      assert [] + [last] == [last] && [last][1..] == [];
      assert AcceptAll(AcceptOne(s, last), []) == AcceptOne(s, last);
    } else {
      assert (batch + [last])[0] == batch[0] && (batch + [last])[1..] == batch[1..] + [last];
      AcceptAllSnoc(AcceptOne(s, batch[0]), batch[1..], last);
    }
  }

  /** Accepting a batch appends exactly its new requests, each with its own kind and identity, and records their
      identities. */
  lemma {:induction false} AcceptsNewOnes(s: Store, batch: seq<Request>)
    ensures var t, fresh_ := AcceptAll(s, batch), NewOnes(s, batch);
            && s.queue <= t.queue && |t.queue| == |s.queue| + |fresh_| && t.next == s.next + |fresh_|
            && (forall i :: 0 <= i < |fresh_| ==>
                  t.queue[|s.queue| + i] == Entry(s.next + i, fresh_[i].kind, fresh_[i].id))
            && (forall id :: id in t.messages <==> id in s.messages || exists k :: 0 <= k < |batch| && batch[k].id == id)
            && t == s.(queue := t.queue, next := t.next, messages := t.messages)
    decreases |batch|
  {
    if batch != [] {
      var n := |batch| - 1;
      var front, last := batch[..n], batch[n];
      assert batch == front + [last];
      AcceptAllSnoc(s, front, last);
      AcceptsNewOnes(s, front);
      var t := AcceptAll(s, front);
      assert last.id in t.messages <==> !New(s, batch, n);
      forall id
        ensures id in AcceptAll(s, batch).messages
           <==> id in s.messages || exists k :: 0 <= k < |batch| && batch[k].id == id
      {
        if k :| 0 <= k < |front| && front[k].id == id { assert batch[k].id == id; }
      }
    }
  }

  /** The answer to a batch says of each request whether it was new. */
  lemma {:induction false} CreatedIsNew(s: Store, batch: seq<Request>, i: nat)
    requires i < |batch|
    ensures |Created(s, batch)| == |batch| && (Created(s, batch)[i] <==> New(s, batch, i))
    decreases |batch|
  {
    var t, rest := AcceptOne(s, batch[0]), batch[1..];
    assert forall id :: id in t.messages <==> id in s.messages || id == batch[0].id;
    if i > 0 {
      CreatedIsNew(t, rest, i - 1);
      assert New(s, batch, i) <==> New(t, rest, i - 1) by {
        assert forall k :: 0 <= k < i - 1 ==> rest[k] == batch[k + 1];
        if New(t, rest, i - 1) {
          forall k | 0 <= k < i ensures batch[k].id != batch[i].id {
            if k > 0 { assert rest[k - 1].id != rest[i - 1].id; }
          }
        }
      }
    } else if rest != [] {
      CreatedIsNew(t, rest, 0);
    }
  }

  // ----- What a step leaves alone -----

  /** Only an acceptance adds to the queue, at its end, and only consuming takes from it. History only grows,
      but for a replacement and a reset. A notice is queued by itself, and all are taken at once, for one record
      in history. */
  lemma {:induction false} StepFrame(a: Agent, x: Action)
    requires Ordered(a.store)
    ensures var s, t := a.store, Step(a, x).store;
            && (!x.Consumes? ==> s.queue <= t.queue)
            && (!x.Offers? && !x.OffersInTransaction? && !x.Consumes? ==> t.queue == s.queue)
            && (!x.Replaces? && !(x.Consumes? && x.reset) ==> s.log <= t.log)
            && (!x.Replaces? && !x.Consumes? && !x.Records? && !x.TakesNotices? ==> t.log == s.log)
            && (x.Records? || (x.TakesNotices? && s.notices != []) ==> t.log == s.log + [OtherRecord])
            && (x.Replaces? ==> t.log == [OtherRecord])
            && t.notices == (if x.TakesNotices? then [] else if x.Notices? then s.notices + [s.next] else s.notices)
            && s.next <= t.next
  {
    match x
    case Offers(batch) => AcceptsNewOnes(a.store, batch);
    case OffersInTransaction(batch, _) => AcceptsNewOnes(a.store, batch);
    case _ =>
  }

  // ----- What a step leaves owed -----

  /** The step makes an inference owed: it accepted, moved or queued something for the model to answer, or is a
      replacement of history after which the run goes on. */
  predicate AsksForInference(a: Agent, x: Action) {
    match x
    case Offers(batch) => Step(a, x).store.queue != a.store.queue
    case OffersInTransaction(batch, _) => Step(a, x).store.queue != a.store.queue
    case Notices => true
    case TakesNotices => a.store.notices != []
    case Consumes(kind, count, _, _) => count > 0 && OfKind(a.store.queue, kind) > 0
    case Replaces(continues) => continues
    case EntersStage(stage) => stage == Inference
    case _ => false
  }

  lemma {:induction false} SomeTaken(queue: seq<Entry>, kind: Kind, count: nat)
    ensures Taken(queue, kind, count) != [] <==> count > 0 && OfKind(queue, kind) > 0
  {
    if queue != [] && count > 0 && queue[0].kind != kind { SomeTaken(queue[1..], kind, count); }
  }

  /** After every such step work is owed, and the process knows the record of it. */
  lemma {:induction false} InferenceIsOwed(a: Agent, x: Action)
    requires Owing(a) && Ordered(a.store) && AsksForInference(a, x)
    ensures Working(Step(a, x).store.owed)
    ensures !x.OffersInTransaction? ==> Step(a, x).cache == Some(Owed(Inference, a.tag))
  {
    match x
    case Offers(batch) => AcceptGrows(a.store, batch);
    case OffersInTransaction(batch, _) => AcceptGrows(a.store, batch);
    case Consumes(kind, count, _, _) => SomeTaken(a.store.queue, kind, count);
    case _ =>
  }

  /** Settling leaves nothing owed exactly when no work is: when the decision stands, or there was no record.
      Otherwise an inference is owed under the new identities, which the process takes over. */
  lemma {:induction false} SettlesIff(a: Agent, fresh_: nat)
    ensures var t := Step(a, Settles(fresh_));
            && (t.store.owed.None? <==> !Working(a.store.owed))
            && (Working(a.store.owed) ==> t.store.owed == Some(Owed(Inference, fresh_)) && t.tag == fresh_)
            && t.cache == t.store.owed && t.store == a.store.(owed := t.store.owed)
  {
  }
}
