/**
 * Settling never loses work: what is queued is recorded as owed, and exactly which restored heaps and which
 * settle decisions break that.
 */
module AgentSettlement {
  import opened Basics
  import opened AgentQueue

  predicate Working(owed: Option<Owed>) { owed.Some? && owed.value.stage != Settlement }

  /** The process believes the inference its next message needs is already recorded. */
  predicate Claims(cache: Option<Owed>) { cache.Some? && cache.value.stage == Inference }

  /** What the heap claims is recorded is recorded; without owed work every queued message was dropped; and
      only messages that were queued have been dropped. */
  predicate Owing(a: Agent) {
    && (Claims(a.cache) ==> Working(a.store.owed))
    && (!Working(a.store.owed) ==> OnlyAbandoned(a.store.queue, a.dropped))
    && a.abandoned <= a.dropped
    && (forall i :: 0 <= i < |a.store.queue| ==> a.store.queue[i].key < a.store.next)
    && (forall k :: k in a.dropped ==> k < a.store.next)
  }

  lemma {:induction false} AcceptGrows(s: Store, batch: seq<Request>)
    requires forall i :: 0 <= i < |s.queue| ==> s.queue[i].key < s.next
    ensures var t := AcceptAll(s, batch);
            && s.queue <= t.queue && s.next <= t.next && t.owed == s.owed && t.notices == s.notices
            && (t.next == s.next ==> t == s)
            && (forall i :: 0 <= i < |t.queue| ==> t.queue[i].key < t.next)
    decreases |batch|
  {
    if batch != [] {
      AcceptGrows(AcceptOne(s, batch[0]), batch[1..]);
      if AcceptAll(s, batch).next == s.next { assert AcceptOne(s, batch[0]) == s; }
    }
  }

  lemma {:induction false} RemainingIsPart(queue: seq<Entry>, kind: Kind, count: nat)
    ensures forall e :: e in Remaining(queue, kind, count) ==> e in queue
    ensures forall e :: e in Taken(queue, kind, count) ==> e in queue && e.kind == kind
  {
    if queue != [] && count > 0 {
      RemainingIsPart(queue[1..], kind, if queue[0].kind == kind then count - 1 else count);
    }
  }

  lemma {:induction false} StepOwing(a: Agent, x: Action)
    requires Owing(a) && !x.Adopts?
    ensures Owing(Step(a, x))
  {
    match x
    case Offers(batch) => AcceptGrows(a.store, batch);
    case OffersInTransaction(batch, _) => AcceptGrows(a.store, batch);
    case Consumes(kind, count, _, _) =>
      var rest := Remaining(a.store.queue, kind, count);
      RemainingIsPart(a.store.queue, kind, count);
      assert forall i :: 0 <= i < |rest| ==> rest[i] in rest;
    case _ =>
  }

  // ----- Restored heaps -----

  /** A failed transaction puts its heap back, or a committed acceptance takes up the record it staged. */
  predicate Restores(p: Process, m: Move) {
    (m.Fails? && p.waiting != []) || (m.Does? && m.action.Adopts?)
  }

  /** The heap put back claims no record that is not there. */
  predicate Keeps(p: Process, m: Move) {
    Restores(p, m) ==> (Claims(Apply(p, m).agent.cache) ==> Working(p.agent.store.owed))
  }

  predicate Faithful(p: Process, moves: seq<Move>)
    decreases |moves|
  {
    moves != [] ==> Keeps(p, moves[0]) && Faithful(Apply(p, moves[0]), moves[1..])
  }

  lemma {:induction false} MoveOwing(p: Process, m: Move)
    requires Owing(p.agent) && Keeps(p, m)
    ensures Owing(Apply(p, m).agent)
  {
    hide Step;
    match m
    case Does(x) => if x.Adopts? { RestoredOwing(p, m); } else { StepOwing(p.agent, x); }
    case Commits => if p.waiting != [] { StepOwing(p.agent, p.waiting[0].work); }
    case Fails => if p.waiting != [] { RestoredOwing(p, m); }
    case _ =>
  }

  lemma {:induction false} RestoredOwing(p: Process, m: Move)
    requires Owing(p.agent) && Keeps(p, m) && Restores(p, m)
    ensures Owing(Apply(p, m).agent)
  {
  }

  lemma {:induction false} RunOwing(p: Process, moves: seq<Move>)
    requires Owing(p.agent) && Faithful(p, moves)
    ensures Owing(Run(p, moves).agent)
    decreases |moves|
  {
    hide Apply;
    hide Owing;
    hide Keeps;
    if moves != [] {
      MoveOwing(p, moves[0]);
      RunOwing(Apply(p, moves[0]), moves[1..]);
    }
  }

  // ----- Queued messages -----

  /** Every queued message that was not dropped has work recorded as owed, and so will any message accepted
      next, under whatever identities the process then has. */
  ghost predicate AllOwed(a: Agent) {
    && (!Working(a.store.owed) ==> OnlyAbandoned(a.store.queue, a.dropped))
    && forall tag: nat, r: Request :: r.id !in a.store.messages ==> Working(Offer(a.(tag := tag), [r]).store.owed)
  }

  ghost predicate AlwaysOwed(p: Process, moves: seq<Move>)
    decreases |moves|
  {
    AllOwed(p.agent) && (moves != [] ==> AlwaysOwed(Apply(p, moves[0]), moves[1..]))
  }

  lemma {:induction false} OfferOne(a: Agent, r: Request)
    requires r.id !in a.store.messages
    ensures Offer(a, [r]).store.owed
         == if a.cache == Some(Owed(Inference, a.tag)) then a.store.owed else Some(Owed(Inference, a.tag))
    ensures Offer(a, [r]) == RecordPending(a.(store := AcceptOne(a.store, r)), Inference, false)
  {
    assert [r][1..] == [];
    assert AcceptAll(a.store, [r]) == AcceptAll(AcceptOne(a.store, r), []);
  }

  lemma {:induction false} OwingMeansOwed(a: Agent)
    requires Owing(a)
    ensures AllOwed(a)
  {
    forall tag: nat, r: Request | r.id !in a.store.messages ensures Working(Offer(a.(tag := tag), [r]).store.owed) {
      OfferOne(a.(tag := tag), r);
    }
  }

  /** There is always an identity not in use. */
  lemma {:induction false} UnusedId(ids: set<string>) returns (id: string)
    ensures forall other :: other in ids ==> |other| < |id|
  {
    if ids == {} {
      id := "";
    } else {
      var some :| some in ids;
      var longer := UnusedId(ids - {some});
      id := seq(|longer| + |some| + 1, i => 'a');
    }
  }

  lemma {:induction false} ClaimLosesMessage(a: Agent)
    requires Claims(a.cache) && !Working(a.store.owed)
    ensures !AllOwed(a)
  {
    var id := UnusedId(a.store.messages);
    OfferOne(a.(tag := a.cache.value.tag), Request(Send, id));
    assert id !in a.store.messages;
  }

  /** Nothing is ever lost exactly when no failed transaction, and no acceptance taking up a record it staged,
      puts back the claim to an inference record while the store holds none: settled, or with the settle
      decision written. */
  lemma {:induction false} AlwaysOwedIff(p: Process, moves: seq<Move>)
    requires Owing(p.agent)
    ensures AlwaysOwed(p, moves) <==> Faithful(p, moves)
    decreases |moves|
  {
    hide Apply;
    hide Owing;
    hide AllOwed;
    OwingMeansOwed(p.agent);
    if moves != [] {
      var next := Apply(p, moves[0]);
      if Keeps(p, moves[0]) {
        MoveOwing(p, moves[0]);
        AlwaysOwedIff(next, moves[1..]);
      } else {
        RestoredClaim(p, moves[0]);
        ClaimLosesMessage(next.agent);
      }
    }
  }

  lemma {:induction false} RestoredClaim(p: Process, m: Move)
    requires !Keeps(p, m)
    ensures Claims(Apply(p, m).agent.cache) && !Working(Apply(p, m).agent.store.owed)
  {
  }

  lemma {:induction false} LaunchOwing()
    ensures Owing(LAUNCH.agent)
  {
  }

  /** In every run whose restored heaps keep to that: a queued message whose turn was never dropped has work
      recorded as owed, neither settled nor settling, and a settlement taken now would reopen it. */
  lemma {:induction false} QueuedMessageIsOwed(moves: seq<Move>, i: nat)
    requires Faithful(LAUNCH, moves)
    ensures var a := Run(LAUNCH, moves).agent;
            i < |a.store.queue| && a.store.queue[i].key !in a.dropped ==>
              Working(a.store.owed) && forall tag :: Working(Settle(a, tag).store.owed)
  {
    LaunchOwing();
    RunOwing(LAUNCH, moves);
  }

  /** A message accepted after the settle decision survives the settlement: the record is still there when it
      settles, and settling reopens it. */
  lemma {:induction false} LateMessageReopens(moves: seq<Move>, r: Request, tag: nat)
    requires Faithful(LAUNCH, moves)
    ensures var decided := EnterSettlement(Run(LAUNCH, moves).agent);
            var accepted := Offer(decided, [r]);
            r.id !in decided.store.messages ==>
              && Working(accepted.store.owed)
              && Working(Settle(accepted, tag).store.owed)
  {
    LaunchOwing();
    RunOwing(LAUNCH, moves);
    var a := Run(LAUNCH, moves).agent;
    StepOwing(a, EntersSettlement);
    OwingMeansOwed(EnterSettlement(a));
    if r.id !in a.store.messages { OfferOne(EnterSettlement(a), r); }
  }

  // ----- Queued notices -----

  /** The settle decision is about to be written. */
  predicate Decides(p: Process, m: Move) {
    m.Commits? && p.waiting != [] && p.waiting[0].work.EntersSettlement?
    && OnlyAbandoned(p.agent.store.queue, p.agent.abandoned)
  }

  predicate Stranded(a: Agent) { a.store.notices != [] && !Working(a.store.owed) }

  lemma {:induction false} StepStrands(a: Agent, x: Action)
    requires Owing(a) && !x.Adopts?
    ensures Stranded(Step(a, x))
        <==> (x.EntersSettlement? && OnlyAbandoned(a.store.queue, a.abandoned) && a.store.notices != [])
             || (Stranded(a) && !Working(Step(a, x).store.owed))
  {
    match x
    case Offers(batch) => AcceptGrows(a.store, batch);
    case OffersInTransaction(batch, _) => AcceptGrows(a.store, batch);
    case _ =>
  }

  lemma {:induction false} MoveStrands(p: Process, m: Move)
    requires Owing(p.agent)
    ensures Stranded(Apply(p, m).agent)
        <==> (Decides(p, m) && p.agent.store.notices != [])
             || (Stranded(p.agent) && !Working(Apply(p, m).agent.store.owed))
  {
    hide Step;
    match m
    case Does(x) => if x.Adopts? { AdoptKeepsStore(p.agent, x); } else { StepStrands(p.agent, x); }
    case Commits => if p.waiting != [] { StepStrands(p.agent, p.waiting[0].work); }
    case _ =>
  }

  lemma {:induction false} AdoptKeepsStore(a: Agent, x: Action)
    requires x.Adopts?
    ensures Step(a, x).store == a.store
  {
  }

  /** At move `i` the settle decision was written over queued notices, and nothing recorded work since. */
  predicate StrandedSince(p: Process, moves: seq<Move>, i: nat)
    requires i < |moves|
  {
    && Decides(Run(p, moves[..i]), moves[i]) && Run(p, moves[..i]).agent.store.notices != []
    && forall j :: i < j <= |moves| ==> !Working(Run(p, moves[..j]).agent.store.owed)
  }

  lemma {:induction false} FaithfulPrefix(p: Process, moves: seq<Move>, m: Move)
    requires Faithful(p, moves + [m])
    ensures Faithful(p, moves) && Keeps(Run(p, moves), m)
    decreases |moves|
  {
    hide Apply;
    hide Keeps;
    if moves == [] {
      assert ([] + [m])[0] == m;
    } else {
      assert (moves + [m])[0] == moves[0] && (moves + [m])[1..] == moves[1..] + [m];
      FaithfulPrefix(Apply(p, moves[0]), moves[1..], m);
    }
  }

  lemma {:induction false} SinceSnoc(p: Process, moves: seq<Move>, m: Move)
    ensures var after := Run(p, moves + [m]).agent;
            (exists i :: 0 <= i < |moves + [m]| && StrandedSince(p, moves + [m], i))
            <==> !Working(after.store.owed)
                 && ((Decides(Run(p, moves), m) && Run(p, moves).agent.store.notices != [])
                     || exists i :: 0 <= i < |moves| && StrandedSince(p, moves, i))
  {
    hide Run;
    hide Decides;
    hide Working;
    var all := moves + [m];
    assert all[..|moves|] == moves && all[..|all|] == all && all[|moves|] == m;
    forall i | 0 <= i < |moves|
      ensures StrandedSince(p, all, i) <==> StrandedSince(p, moves, i) && !Working(Run(p, all).agent.store.owed) {
      SinceLater(p, moves, m, i);
    }
    var last := Decides(Run(p, moves), m) && Run(p, moves).agent.store.notices != []
                && !Working(Run(p, all).agent.store.owed);
    assert StrandedSince(p, all, |moves|) <==> last;
  }

  lemma {:induction false} SinceLater(p: Process, moves: seq<Move>, m: Move, i: nat)
    requires i < |moves|
    ensures StrandedSince(p, moves + [m], i)
        <==> StrandedSince(p, moves, i) && !Working(Run(p, moves + [m]).agent.store.owed)
  {
    hide Run;
    hide Decides;
    hide Working;
    var all := moves + [m];
    assert all[..|all|] == all && all[i] == moves[i];
    assert forall j :: 0 <= j <= |moves| ==> all[..j] == moves[..j];
  }

  /** Over every run, a notice is queued with no work owed exactly when some settle decision was written over
      a queued notice and the record was not rewritten since. */
  lemma {:induction false} StrandedIff(p: Process, moves: seq<Move>)
    requires Owing(p.agent) && !Stranded(p.agent) && Faithful(p, moves)
    ensures Stranded(Run(p, moves).agent) <==> exists i :: 0 <= i < |moves| && StrandedSince(p, moves, i)
    decreases |moves|
  {
    hide Apply;
    hide Owing;
    hide Decides;
    hide Working;
    hide Faithful;
    if moves != [] {
      var n := |moves| - 1;
      var before, m := moves[..n], moves[n];
      assert moves == before + [m];
      FaithfulPrefix(p, before, m);
      RunSnoc(p, before, m);
      RunOwing(p, before);
      MoveStrands(Run(p, before), m);
      StrandedIff(p, before);
      SinceSnoc(p, before, m);
    }
  }

  /** Notices stay owed throughout exactly when no settle decision is written while one is queued. */
  lemma {:induction false} NoticesOwedIff(p: Process, moves: seq<Move>)
    requires Owing(p.agent) && !Stranded(p.agent) && Faithful(p, moves)
    ensures (forall j :: 0 <= j <= |moves| ==> !Stranded(Run(p, moves[..j]).agent))
        <==> forall i :: 0 <= i < |moves| && Decides(Run(p, moves[..i]), moves[i]) ==>
               Run(p, moves[..i]).agent.store.notices == []
    decreases |moves|
  {
    hide Apply;
    hide Owing;
    hide Decides;
    hide Stranded;
    hide Faithful;
    if moves == [] {
      assert moves[..0] == [];
    } else {
      var n := |moves| - 1;
      var before, m := moves[..n], moves[n];
      assert moves == before + [m];
      FaithfulPrefix(p, before, m);
      RunSnoc(p, before, m);
      RunOwing(p, before);
      MoveStrands(Run(p, before), m);
      NoticesOwedIff(p, before);
      assert moves[..|moves|] == moves && before[..n] == before;
      assert forall j :: 0 <= j <= n ==> moves[..j] == before[..j];
    }
  }

  // ----- Runs in which something is lost -----

  lemma {:induction false} RunCons(p: Process, m: Move, rest: seq<Move>)
    ensures Run(p, [m] + rest) == Run(Apply(p, m), rest)
  {
    hide Apply;
    assert ([m] + rest)[0] == m && ([m] + rest)[1..] == rest;
  }

  lemma {:induction false} RunTwo(p: Process, a: Move, b: Move, rest: seq<Move>)
    ensures Run(p, [a, b] + rest) == Run(Apply(Apply(p, a), b), rest)
  {
    hide Apply;
    assert [a, b] + rest == [a] + ([b] + rest);
    RunCons(p, a, [b] + rest);
    RunCons(Apply(p, a), b, rest);
  }

  /** A transaction asked for on a free process and committed is one step. */
  lemma {:induction false} RunStep(a: Agent, x: Work, rest: seq<Move>)
    ensures Run(Process(a, []), [Requests(x, false), Commits] + rest) == Run(Process(Step(a, x), []), rest)
  {
    RunTwo(Process(a, []), Requests(x, false), Commits, rest);
    hide Step;
    hide Run;
    assert Apply(Process(a, []), Requests(x, false)).waiting == [Waiting(HeapOf(a), x)];
    assert [Waiting(HeapOf(a), x)][1..] == [];
  }

  /** The settle decision does not look at the notices, so one queued when it is taken stays queued with
      nothing owed. */
  lemma {:induction false} NoticeIsStranded()
    ensures var a := Run(LAUNCH, [Requests(Notices, false), Commits] + ([Requests(EntersSettlement, false), Commits]
                                  + ([Requests(Settles(1), false), Commits] + []))).agent;
            a.store.owed == None && |a.store.notices| == 1 && a.dropped == {}
  {
    hide Run;
    var last := [Requests(Settles(1), false), Commits] + [];
    var a := Step(START, Notices);
    var b := Step(a, EntersSettlement);
    RunStep(START, Notices, [Requests(EntersSettlement, false), Commits] + last);
    RunStep(a, EntersSettlement, last);
    RunStep(b, Settles(1), []);
    RunNothing(Process(Step(b, Settles(1)), []));
  }

  lemma {:induction false} RunDoes(a: Agent, x: Prompt, rest: seq<Move>)
    ensures Run(Process(a, []), [Does(x)] + rest) == Run(Process(Step(a, x), []), rest)
  {
    RunCons(Process(a, []), Does(x), rest);
  }

  lemma {:induction false} RunConcat(p: Process, a: seq<Move>, b: seq<Move>)
    ensures Run(p, a + b) == Run(Run(p, a), b)
    decreases |a|
  {
    hide Apply;
    if a == [] {
      assert a + b == b;
    } else {
      assert (a + b)[0] == a[0] && (a + b)[1..] == a[1..] + b;
      RunConcat(Apply(p, a[0]), a[1..], b);
    }
  }

  /** A run that settles under identities 7 accepts a message in a caller's transaction, which writes the
      record again as inference under the same identities, and dies. */
  const INHERITED := Agent(Store(Some(Owed(Inference, 7)), [Entry(1, Send, "b")], [], {"a", "b"}, [UserRecord("a")], 2),
                           None, 0, {}, {})

  /** The next process has answered that message and is settling in turn. */
  const SETTLING := INHERITED.(store := INHERITED.store.(queue := [], log := [UserRecord("a"), UserRecord("b")]),
                               cache := Some(Owed(Inference, 7)), tag := 7)

  const TAKE_ONE := Consumes(Send, 1, false, false)

  lemma {:induction false} TakesOnly(a: Agent, e: Entry)
    requires a.store.queue == [e] && e.kind == Send && a.cache == Some(Owed(Inference, a.tag))
    ensures Step(a, TAKE_ONE) == a.(store := a.store.(queue := [], log := a.store.log + [UserRecord(e.id)]))
  {
    assert [e][1..] == [];
    assert Taken([e], Send, 1) == [e] + Taken([], Send, 0) && Remaining([e], Send, 1) == Remaining([], Send, 0);
    assert UserRecords([e]) == [UserRecord(e.id)];
    assert a.store.log + [] == a.store.log;
  }

  /** Answered, with the settle decision written. */
  const DECIDED := Agent(Store(Some(Owed(Settlement, 7)), [], [], {"a"}, [UserRecord("a")], 1),
                         Some(Owed(Settlement, 7)), 7, {}, {})

  lemma {:induction false} DecidedState()
    ensures Step(Step(Step(Step(START, Offers([Request(Send, "a")])), TAKE_ONE), NewIds(7)), EntersSettlement) == DECIDED
  {
    hide AcceptAll;
    hide Taken;
    hide Remaining;
    OfferOne(START, Request(Send, "a"));
    var a := Step(START, Offers([Request(Send, "a")]));
    assert a.store.queue == [Entry(0, Send, "a")] && a.store.messages == {"a"};
    TakesOnly(a, Entry(0, Send, "a"));
    assert START.store.log + [UserRecord("a")] == [UserRecord("a")];
  }

  lemma {:induction false} InheritedState()
    ensures Step(Step(DECIDED, OffersInTransaction([Request(Send, "b")], 9)), Crashes(0)) == INHERITED
  {
    hide AcceptAll;
    OneInTransaction(DECIDED, Request(Send, "b"), 9);
  }

  lemma {:induction false} InheritedIsReached() returns (moves: seq<Move>)
    ensures Run(LAUNCH, moves) == Process(INHERITED, [])
  {
    hide Run;
    hide Step;
    DecidedState();
    InheritedState();
    var one, two := Offers([Request(Send, "a")]), OffersInTransaction([Request(Send, "b")], 9);
    var a := Step(START, one);
    var b := Step(a, TAKE_ONE);
    RunNothing(Process(INHERITED, []));
    RunDoes(Step(DECIDED, two), Crashes(0), []);
    var m1 := [Does(Crashes(0))] + [];
    RunDoes(DECIDED, two, m1);
    var m2 := [Does(two)] + m1;
    RunStep(Step(b, NewIds(7)), EntersSettlement, m2);
    var m3 := [Requests(EntersSettlement, false), Commits] + m2;
    RunDoes(b, NewIds(7), m3);
    var m4 := [Does(NewIds(7))] + m3;
    RunStep(a, TAKE_ONE, m4);
    var m5 := [Requests(TAKE_ONE, false), Commits] + m4;
    RunStep(START, one, m5);
    moves := [Requests(one, false), Commits] + m5;
  }

  lemma {:induction false} RunNothing(p: Process)
    ensures Run(p, []) == p
  {
  }

  lemma {:induction false} OneInTransaction(a: Agent, r: Request, tag: nat)
    requires r.id !in a.store.messages && a.store.owed.Some?
    ensures OfferInTransaction(a, [r], tag)
         == a.(store := AcceptOne(a.store, r).(owed := Some(Owed(Inference, a.store.owed.value.tag))))
  {
    assert [r][1..] == [];
    assert AcceptAll(a.store, [r]) == AcceptAll(AcceptOne(a.store, r), []);
  }

  lemma {:induction false} SettlingIsReached() returns (moves: seq<Move>)
    ensures Run(LAUNCH, moves) == Process(SETTLING, [])
  {
    hide Run;
    var first := InheritedIsReached();
    var a := Step(INHERITED, Loads);
    TakesOnly(a, Entry(1, Send, "b"));
    assert [UserRecord("a")] + [UserRecord("b")] == [UserRecord("a"), UserRecord("b")];
    RunNothing(Process(SETTLING, []));
    RunStep(a, TAKE_ONE, []);
    var rest := [Requests(TAKE_ONE, false), Commits] + [];
    RunDoes(INHERITED, Loads, rest);
    moves := first + ([Does(Loads)] + rest);
    RunConcat(LAUNCH, first, [Does(Loads)] + rest);
  }

  /** The settle decision commits and the acceptance that waited for it fails. */
  lemma {:induction false} DecidesThenFails(r: Request, rest: seq<Move>)
    ensures var settled := SETTLING.(store := SETTLING.store.(owed := Some(Owed(Settlement, 7))));
            Run(Process(SETTLING, []),
                [Requests(EntersSettlement, false), Requests(Offers([r]), false)] + ([Commits, Fails] + rest))
            == Run(Process(settled, []), rest)
  {
    hide Run;
    hide AcceptAll;
    var p := Process(SETTLING, []);
    RunTwo(p, Requests(EntersSettlement, false), Requests(Offers([r]), false), [Commits, Fails] + rest);
    var q := Apply(Apply(p, Requests(EntersSettlement, false)), Requests(Offers([r]), false));
    RunTwo(q, Commits, Fails, rest);
    var heap := HeapOf(SETTLING);
    assert q.waiting == [Waiting(heap, EntersSettlement), Waiting(heap, Offers([r]))];
    assert q.waiting[1..] == [Waiting(heap, Offers([r]))] && q.waiting[1..][1..] == [];
  }

  /** A message is lost without a further crash. An acceptance asked for while the settle decision is being
      written fails after it and puts back the claim to the inference record; the next acceptance believes it
      and writes none, and the settlement finds nothing that was accepted since. */
  lemma {:induction false} StaleClaimLosesMessage() returns (moves: seq<Move>)
    ensures var a := Run(LAUNCH, moves).agent;
            a.store.owed == None && a.store.queue == [Entry(2, Send, "d")] && a.dropped == {}
  {
    hide Run;
    var failed, lost := Request(Send, "c"), Request(Send, "d");
    var first := SettlingIsReached();
    var settles := [Requests(Settles(9), false), Commits] + [];
    var accepts := [Requests(Offers([lost]), false), Commits] + settles;
    var all := [Requests(EntersSettlement, false), Requests(Offers([failed]), false)] + ([Commits, Fails] + accepts);
    RunConcat(LAUNCH, first, all);
    DecidesThenFails(failed, accepts);
    var settled := SETTLING.(store := SETTLING.store.(owed := Some(Owed(Settlement, 7))));
    OfferOne(settled, lost);
    var accepted := Step(settled, Offers([lost]));
    RunStep(settled, Offers([lost]), settles);
    RunStep(accepted, Settles(9), []);
    RunNothing(Process(Step(accepted, Settles(9)), []));
    moves := first + all;
  }

  /** Two acceptances fail in a row, the second asked for while the first was being written; the third then
      commits without a record of the work it owes. */
  lemma {:induction false} FailuresLoseMessage()
    ensures var r := Request(Send, "c");
            var moves := [Requests(Offers([Request(Send, "a")]), false), Requests(Offers([Request(Send, "b")]), true)]
                         + ([Fails, Fails] + ([Requests(Offers([r]), false), Commits] + []));
            var a := Run(LAUNCH, moves).agent;
            a.store.owed == None && a.store.queue == [Entry(0, Send, "c")] && a.dropped == {}
  {
    hide Run;
    var one, two, r := Request(Send, "a"), Request(Send, "b"), Request(Send, "c");
    var last := [Requests(Offers([r]), false), Commits] + [];
    RunTwo(LAUNCH, Requests(Offers([one]), false), Requests(Offers([two]), true), [Fails, Fails] + last);
    var q := Apply(Apply(LAUNCH, Requests(Offers([one]), false)), Requests(Offers([two]), true));
    RunTwo(q, Fails, Fails, last);
    OfferOne(START, one);
    var heap := Heap(Some(Owed(Inference, 0)), 0);
    assert q.waiting == [Waiting(HeapOf(START), Offers([one])), Waiting(heap, Offers([two]))];
    var claiming := START.(cache := Some(Owed(Inference, 0)));
    assert q.waiting[1..] == [Waiting(heap, Offers([two]))] && q.waiting[1..][1..] == [];
    assert Apply(Apply(q, Fails), Fails) == Process(claiming, []);
    RunStep(claiming, Offers([r]), []);
    OfferOne(claiming, r);
    RunNothing(Process(Step(claiming, Offers([r])), []));
  }
}
