/**
 * The durable message queues of an agent, the record of what it owes, and the identities of the messages
 * it accepted (AgentBase.ts). Every function that maps an agent to an agent is one transaction that
 * committed, together with the heap changes that follow it. A process asks for transactions, which then
 * commit or fail in turn; one that fails puts back the heap as it was when it was asked for.
 */
module AgentQueue {
  import opened Basics

  datatype Stage = Inference | Tools | Compaction | Settlement

  /** What the agent durably owes; `tag` stands for the lifecycle identities stored with the stage. */
  datatype Owed = Owed(stage: Stage, tag: nat)

  datatype Kind = Steering | Send

  /** A queue entry; entries are numbered in order of acceptance. */
  datatype Entry = Entry(key: nat, kind: Kind, id: string)

  datatype Record = UserRecord(id: string) | OtherRecord

  datatype Request = Request(kind: Kind, id: string)

  datatype Store = Store(
    owed: Option<Owed>,
    queue: seq<Entry>,
    notices: seq<nat>,
    messages: set<string>,
    log: seq<Record>,
    next: nat)

  /** `cache` is the owed record this process wrote last and `tag` its current lifecycle identities.
      `abandoned` are the entries whose turn was dropped; `dropped` also remembers earlier ones. */
  datatype Agent = Agent(store: Store, cache: Option<Owed>, tag: nat, abandoned: set<nat>, dropped: set<nat>)

  // ----- Accepting messages -----

  function AcceptOne(s: Store, r: Request): Store {
    if r.id in s.messages then s
    else s.(messages := s.messages + {r.id}, queue := s.queue + [Entry(s.next, r.kind, r.id)], next := s.next + 1)
  }

  function AcceptAll(s: Store, batch: seq<Request>): Store
    decreases |batch|
  {
    if batch == [] then s else AcceptAll(AcceptOne(s, batch[0]), batch[1..])
  }

  /** Which requests of a batch are new; the others repeat an identity already held or earlier in the batch. */
  function Created(s: Store, batch: seq<Request>): seq<bool>
    decreases |batch|
  {
    if batch == [] then [] else [batch[0].id !in s.messages] + Created(AcceptOne(s, batch[0]), batch[1..])
  }

  /** Write the owed record unless this process already wrote the very same one. */
  function RecordPending(a: Agent, stage: Stage, force: bool): Agent {
    var owed := Some(Owed(stage, a.tag));
    if !force && a.cache == owed then a else a.(store := a.store.(owed := owed), cache := owed)
  }

  /** An acceptance in a transaction of its own. */
  function Offer(a: Agent, batch: seq<Request>): Agent {
    var s := AcceptAll(a.store, batch);
    if s.next == a.store.next then a else RecordPending(a.(store := s), Inference, false)
  }

  /** An acceptance inside a caller's transaction: the record is rewritten, the heap is not touched. */
  function OfferInTransaction(a: Agent, batch: seq<Request>, fresh_: nat): Agent {
    var s := AcceptAll(a.store, batch);
    if s.next == a.store.next then a
    else a.(store := s.(owed := Some(Owed(Inference, if s.owed.Some? then s.owed.value.tag else fresh_))))
  }

  /** A hook's notice enters a queue of its own. */
  function Notice(a: Agent): Agent {
    RecordPending(a.(store := a.store.(notices := a.store.notices + [a.store.next], next := a.store.next + 1)),
                  Inference, false)
  }

  // ----- Moving messages into history -----

  /** The oldest `count` entries of one kind, and the rest of the queue. */
  function Taken(queue: seq<Entry>, kind: Kind, count: nat): seq<Entry> {
    if queue == [] || count == 0 then []
    else if queue[0].kind == kind then [queue[0]] + Taken(queue[1..], kind, count - 1)
    else Taken(queue[1..], kind, count)
  }

  function Remaining(queue: seq<Entry>, kind: Kind, count: nat): seq<Entry> {
    if queue == [] || count == 0 then queue
    else if queue[0].kind == kind then Remaining(queue[1..], kind, count - 1)
    else [queue[0]] + Remaining(queue[1..], kind, count)
  }

  function UserRecords(batch: seq<Entry>): seq<Record> {
    seq(|batch|, i requires 0 <= i < |batch| => UserRecord(batch[i].id))
  }

  function UserIds(log: seq<Record>): seq<string> {
    if log == [] then [] else (if log[0].UserRecord? then [log[0].id] else []) + UserIds(log[1..])
  }

  function QueueIds(queue: seq<Entry>): seq<string> {
    seq(|queue|, i requires 0 <= i < |queue| => queue[i].id)
  }

  /** Forget the identities of every message in the log, and the log. */
  function EraseHistory(s: Store): Store {
    s.(messages := s.messages - (set id | id in UserIds(s.log)), log := [])
  }

  /** Consume queued messages; an incompatible selection first erases the conversation, and a hook may open
      the fresh one with a handoff. */
  function Consume(a: Agent, kind: Kind, count: nat, reset: bool, handoff: bool): Agent {
    var batch := Taken(a.store.queue, kind, count);
    if batch == [] then a
    else
      var s := a.store.(queue := Remaining(a.store.queue, kind, count));
      var t := if reset then EraseHistory(s) else s;
      var log := t.log + (if reset && handoff then [OtherRecord] else []) + UserRecords(batch);
      RecordPending(a.(store := t.(log := log)), Inference, false)
  }

  /** A compaction or an overflow reset: one record replaces the log, with the response still owed if the
      run goes on. */
  function ReplaceHistory(a: Agent, continues: bool): Agent {
    var b := a.(store := EraseHistory(a.store).(log := [OtherRecord]));
    if continues then RecordPending(b, Inference, true) else b
  }

  // ----- Ending a run -----

  predicate OnlyAbandoned(queue: seq<Entry>, abandoned: set<nat>) {
    forall i :: 0 <= i < |queue| ==> queue[i].key in abandoned
  }

  /** Record the settle decision unless queued input is still wanted. Notices are not looked at. */
  function EnterSettlement(a: Agent): Agent {
    if !OnlyAbandoned(a.store.queue, a.abandoned) then a else RecordPending(a, Settlement, true)
  }

  /** Erase the owed record; work accepted since the decision reopens it in the same transaction. */
  function Settle(a: Agent, fresh_: nat): Agent {
    if a.store.owed.Some? && a.store.owed.value.stage != Settlement then
      var reopened := Some(Owed(Inference, fresh_));
      a.(store := a.store.(owed := reopened), cache := reopened, tag := fresh_)
    else a.(store := a.store.(owed := None), cache := None)
  }

  datatype Action =
    | Offers(batch: seq<Request>)
    | OffersInTransaction(batch: seq<Request>, fresh_: nat)
    | Notices
    | TakesNotices
    | Loads
    | Adopts(staged: Owed, readable: bool)
    | NewIds(tag: nat)
    | EntersStage(stage: Stage)
    | Consumes(kind: Kind, count: nat, reset: bool, handoff: bool)
    | Records
    | Replaces(continues: bool)
    | Abandons(keys: set<nat>)
    | StartsTurn
    | EntersSettlement
    | Settles(fresh_: nat)
    | Crashes(tag: nat)

  function QueueKeys(queue: seq<Entry>): set<nat> { set i | 0 <= i < |queue| :: queue[i].key }

  function Step(a: Agent, x: Action): Agent {
    match x
    case Offers(batch) => Offer(a, batch)
    case OffersInTransaction(batch, tag) => OfferInTransaction(a, batch, tag)
    case Notices => Notice(a)
    case TakesNotices =>
      if a.store.notices == [] then a
      else RecordPending(a.(store := a.store.(notices := [], log := a.store.log + [OtherRecord])), Inference, false)
    case Loads =>
      if a.store.owed.None? then a.(cache := None) else a.(cache := a.store.owed, tag := a.store.owed.value.tag)
    case Adopts(staged, readable) =>
      var owed := if readable && a.store.owed.Some? then a.store.owed.value else staged;
      a.(cache := Some(owed), tag := owed.tag)
    case NewIds(tag) => a.(tag := tag)
    case EntersStage(stage) => if stage == Settlement then a else RecordPending(a, stage, false)
    case Consumes(kind, count, reset, handoff) => Consume(a, kind, count, reset, handoff)
    case Records => a.(store := a.store.(log := a.store.log + [OtherRecord]))
    case Replaces(continues) => ReplaceHistory(a, continues)
    case Abandons(keys) =>
      if !(keys <= QueueKeys(a.store.queue)) then a
      else a.(abandoned := a.abandoned + keys, dropped := a.dropped + keys)
    case StartsTurn => a.(abandoned := {})
    case EntersSettlement => EnterSettlement(a)
    case Settles(tag) => Settle(a, tag)
    case Crashes(tag) => a.(cache := None, tag := tag, abandoned := {})
  }

  // ----- Waiting transactions -----

  /** What a failed transaction puts back: the owed record this process believes it wrote, and its identities. */
  datatype Heap = Heap(cache: Option<Owed>, tag: nat)

  function HeapOf(a: Agent): Heap { Heap(a.cache, a.tag) }

  /** What runs in a transaction of its own. */
  predicate Transactional(x: Action) {
    !(x.OffersInTransaction? || x.Loads? || x.Adopts? || x.NewIds? || x.Abandons? || x.StartsTurn? || x.Crashes?)
  }

  /** What happens at once: the above, and the writes that may also be a single statement. */
  predicate Immediate(x: Action) { !Transactional(x) || x.EntersStage? || x.Records? }

  type Work = x: Action | Transactional(x) witness Notices

  type Prompt = x: Action | Immediate(x) witness StartsTurn

  /** A transaction asked for and not yet ended, with the heap as it was when it was asked for. */
  datatype Waiting = Waiting(heap: Heap, work: Work)

  /** One process and its transactions, which run one at a time in the order they were asked for. */
  datatype Process = Process(agent: Agent, waiting: seq<Waiting>)

  /** Something that needs no waiting happens, a transaction is asked for, or the oldest one ends. A
      transaction asked for `inside` the oldest one's body sees the heap that body has already changed. */
  datatype Move = Does(action: Prompt) | Requests(work: Work, inside: bool) | Commits | Fails

  function Apply(p: Process, m: Move): Process {
    match m
    case Does(x) => Process(Step(p.agent, x), if x.Crashes? then [] else p.waiting)
    case Requests(x, inside) =>
      var seen := if inside && p.waiting != [] then Step(p.agent, p.waiting[0].work) else p.agent;
      p.(waiting := p.waiting + [Waiting(HeapOf(seen), x)])
    case Commits =>
      if p.waiting == [] then p else Process(Step(p.agent, p.waiting[0].work), p.waiting[1..])
    case Fails =>
      if p.waiting == [] then p
      else
        var heap := p.waiting[0].heap;
        Process(p.agent.(cache := heap.cache, tag := heap.tag), p.waiting[1..])
  }

  function Run(p: Process, moves: seq<Move>): Process
    decreases |moves|
  {
    if moves == [] then p else Run(Apply(p, moves[0]), moves[1..])
  }

  lemma {:induction false} RunSnoc(p: Process, moves: seq<Move>, m: Move)
    ensures Run(p, moves + [m]) == Apply(Run(p, moves), m)
    decreases |moves|
  {
    hide Apply;
    if moves == [] {
      assert [] + [m] == [m] && [m][1..] == [];
      assert Run(p, [m]) == Run(Apply(p, m), []);
    } else {
      assert (moves + [m])[0] == moves[0] && (moves + [m])[1..] == moves[1..] + [m];
      RunSnoc(Apply(p, moves[0]), moves[1..], m);
    }
  }

  const START := Agent(Store(None, [], [], {}, [], 0), None, 0, {}, {})

  const LAUNCH := Process(START, [])

  // ----- As the source performs it -----

  /** The transactions of one agent over its own part of the store. */
  class AgentRecords {
    var owed: Option<Owed>
    var queue: seq<Entry>
    var notices: seq<nat>
    var messages: set<string>
    var log: seq<Record>
    var next: nat
    var pendingWritten: Option<Owed>
    var tag: nat
    var abandonedQueueKeys: set<nat>
    ghost var dropped: set<nat>

    ghost function State(): Agent
      reads this
    {
      Agent(Store(owed, queue, notices, messages, log, next), pendingWritten, tag, abandonedQueueKeys, dropped)
    }

    constructor ()
      ensures State() == START
    {
      owed, queue, notices, messages, log, next := None, [], [], {}, [], 0;
      pendingWritten, tag, abandonedQueueKeys, dropped := None, 0, {}, {};
    }

    method WritePending(stage: Stage, force: bool)
      modifies `owed, `pendingWritten
      ensures State() == RecordPending(old(State()), stage, force)
    {
      var pending := Some(Owed(stage, tag));
      if !force && pendingWritten == pending {
        return;
      }
      owed := pending;
      pendingWritten := pending;
    }

    method EnqueueIndependently(batch: seq<Request>) returns (created: seq<bool>)
      modifies this
      ensures State() == Offer(old(State()), batch)
      ensures created == Created(old(State()).store, batch)
    {
      var accepted := false;
      created := [];
      var i := 0;
      while i < |batch|
        invariant 0 <= i <= |batch| && old(next) <= next && (accepted <==> next != old(next))
        invariant created + Created(State().store, batch[i..]) == Created(old(State()).store, batch)
        invariant State() == old(State()).(store := State().store)
        invariant AcceptAll(State().store, batch[i..]) == AcceptAll(old(State()).store, batch)
        invariant !accepted ==> State() == old(State())
      {
        BatchHead(State().store, batch, i, created);
        var isNew := CreateQueued(batch[i]);
        accepted := accepted || isNew;
        created := created + [isNew];
        i := i + 1;
      }
      if accepted {
        WritePending(Inference, false);
      }
    }

    method CreateQueued(request: Request) returns (isNew: bool)
      modifies `queue, `messages, `next
      ensures State().store == AcceptOne(old(State()).store, request)
      ensures isNew <==> request.id !in old(messages)
    {
      if request.id in messages {
        return false;
      }
      messages := messages + {request.id};
      queue := queue + [Entry(next, request.kind, request.id)];
      next := next + 1;
      return true;
    }

    method EnterSettlementStage()
      modifies this
      ensures State() == EnterSettlement(old(State()))
    {
      var wanted := false;
      for i := 0 to |queue|
        invariant wanted <==> exists j :: 0 <= j < i && queue[j].key !in abandonedQueueKeys
      {
        if queue[i].key !in abandonedQueueKeys {
          wanted := true;
        }
      }
      if !wanted {
        WritePending(Settlement, true);
      }
    }

    method SettleRecord(fresh_: nat)
      modifies this
      ensures State() == Settle(old(State()), fresh_)
    {
      var before := owed;
      owed, pendingWritten := None, None;
      if before.Some? && before.value.stage != Settlement {
        owed := Some(Owed(Inference, fresh_));
        pendingWritten, tag := owed, fresh_;
      }
    }

    method DeleteRecordIdentities()
      modifies `messages
      ensures messages == old(messages) - (set id | id in UserIds(log))
    {
      for i := 0 to |log|
        invariant messages == old(messages) - (set id | id in UserIds(log[..i]))
      {
        assert log[..i + 1] == log[..i] + [log[i]];
        UserIdsConcat(log[..i], [log[i]]);
        assert [log[i]][1..] == [];
        if log[i].UserRecord? {
          messages := messages - {log[i].id};
        }
      }
      assert log[..|log|] == log;
    }
  }

  lemma {:induction false} BatchHead(s: Store, batch: seq<Request>, i: nat, created: seq<bool>)
    requires i < |batch|
    ensures AcceptAll(s, batch[i..]) == AcceptAll(AcceptOne(s, batch[i]), batch[i + 1..])
    ensures created + Created(s, batch[i..])
         == created + [batch[i].id !in s.messages] + Created(AcceptOne(s, batch[i]), batch[i + 1..])
  {
    assert batch[i..][0] == batch[i] && batch[i..][1..] == batch[i + 1..];
    Associative(created, [batch[i].id !in s.messages], Created(AcceptOne(s, batch[i]), batch[i + 1..]));
  }

  lemma {:induction false} UserIdsConcat(a: seq<Record>, b: seq<Record>)
    ensures UserIds(a + b) == UserIds(a) + UserIds(b)
  {
    if a == [] {
      assert a + b == b;
    } else {
      UserIdsConcat(a[1..], b);
      assert (a + b)[0] == a[0] && (a + b)[1..] == a[1..] + b;
      Associative(if a[0].UserRecord? then [a[0].id] else [], UserIds(a[1..]), UserIds(b));
    }
  }
}
