/** The order in which a provider is shown the history: results directly after their calls (AgentBase.ts). */
module ProviderView {
  import opened Basics
  import opened ProviderContext

  /** The IDs of the calls a client answers, in block order. */
  function ClientCalls(bs: seq<Block>): seq<string> {
    if bs == [] then []
    else (if bs[0].ToolCall? && !bs[0].server then [bs[0].callId] else []) + ClientCalls(bs[1..])
  }

  function CallsOf(m: Message): seq<string> {
    if m.Assistant? then ClientCalls(m.content) else []
  }

  function IdSet(ids: seq<string>): set<string> { set id | id in ids }

  function Calls(ms: seq<Message>): set<string> {
    if ms == [] then {} else IdSet(CallsOf(ms[0])) + Calls(ms[1..])
  }

  /** The results recorded for one call ID, in order. */
  function Results(ms: seq<Message>, id: string): seq<Message> {
    if ms == [] then []
    else (if ms[0].Tool? && ms[0].callId == id then [ms[0]] else []) + Results(ms[1..], id)
  }

  predicate EmptyUser(m: Message) { m == User([]) }

  predicate Answers(m: Message, calls: set<string>) { m.Tool? && m.callId in calls }

  type Waiting = map<string, seq<Message>>

  function Left(q: Waiting, id: string): seq<Message> {
    if id in q then q[id] else []
  }

  /** One waiting result for each call, in call order, where there is one. */
  function Attach(ids: seq<string>, q: Waiting): (seq<Message>, Waiting)
    decreases |ids|
  {
    if ids == [] then ([], q)
    else if Left(q, ids[0]) == [] then Attach(ids[1..], q)
    else
      var (run, end) := Attach(ids[1..], q[ids[0] := q[ids[0]][1..]]);
      ([q[ids[0]][0]] + run, end)
  }

  function Order(ms: seq<Message>, calls: set<string>, q: Waiting): seq<Message>
    decreases |ms|
  {
    if ms == [] then []
    else if EmptyUser(ms[0]) || Answers(ms[0], calls) then Order(ms[1..], calls, q)
    else
      var (run, end) := Attach(CallsOf(ms[0]), q);
      [ms[0]] + run + Order(ms[1..], calls, end)
  }

  function AllResults(ms: seq<Message>): Waiting {
    if ms == [] then map[]
    else
      var q := AllResults(ms[..|ms| - 1]);
      var m := ms[|ms| - 1];
      if m.Tool? then q[m.callId := Left(q, m.callId) + [m]] else q
  }

  function View(ms: seq<Message>): seq<Message> {
    Order(ms, Calls(ms), AllResults(ms))
  }

  // ----- As the source computes it -----

  method MessagesForProvider(messages: seq<Message>) returns (ordered: seq<Message>)
    ensures ordered == View(messages)
  {
    hide Order;
    hide Attach;
    var calls, results := Collect(messages);
    ordered := [];
    var i := 0;
    while i < |messages|
      invariant 0 <= i <= |messages|
      invariant ordered + Order(messages[i..], calls, results) == View(messages)
    {
      var message := messages[i];
      OrderStep(messages, i, calls, results);
      if !EmptyUser(message) && !(message.Tool? && message.callId in calls) {
        var run: seq<Message> := [];
        if message.Assistant? {
          run, results := TakeResults(message.content, results);
        }
        Shift(ordered, [message], run, Order(messages[i + 1..], calls, results));
        ordered := ordered + [message] + run;
      }
      i := i + 1;
    }
    NothingOrdered(calls, results);
    assert messages[i..] == [];
  }

  lemma {:induction false} Shift(a: seq<Message>, b: seq<Message>, c: seq<Message>, d: seq<Message>)
    ensures a + (b + c + d) == a + b + c + d
  {
  }

  lemma {:induction false} NothingOrdered(calls: set<string>, q: Waiting)
    ensures Order([], calls, q) == []
  {
  }

  lemma {:induction false} OrderStep(ms: seq<Message>, i: nat, calls: set<string>, q: Waiting)
    requires i < |ms|
    ensures var m := ms[i];
            Order(ms[i..], calls, q)
            == if EmptyUser(m) || Answers(m, calls) then Order(ms[i + 1..], calls, q)
               else if m.Assistant? then
                 [m] + Attach(ClientCalls(m.content), q).0
                 + Order(ms[i + 1..], calls, Attach(ClientCalls(m.content), q).1)
               else [m] + [] + Order(ms[i + 1..], calls, q)
  {
    assert ms[i..][0] == ms[i] && ms[i..][1..] == ms[i + 1..];
    NothingAttached(q);
    hide Attach;
  }

  lemma {:induction false} NothingAttached(q: Waiting)
    ensures Attach([], q) == ([], q)
  {
  }

  method Collect(messages: seq<Message>) returns (calls: set<string>, results: Waiting)
    ensures calls == Calls(messages) && results == AllResults(messages)
  {
    calls, results := {}, map[];
    for i := 0 to |messages|
      invariant calls == Calls(messages[..i]) && results == AllResults(messages[..i])
    {
      var message := messages[i];
      assert messages[..i + 1] == messages[..i] + [message];
      CallsConcat(messages[..i], [message]);
      CallsOfOne(message);
      if message.Assistant? {
        var ids := CallIds(message.content);
        calls := calls + ids;
      } else if message.Tool? {
        results := results[message.callId := Left(results, message.callId) + [message]];
      }
    }
    assert messages[..|messages|] == messages;
  }

  method CallIds(content: seq<Block>) returns (ids: set<string>)
    ensures ids == IdSet(ClientCalls(content))
  {
    ids := {};
    for i := 0 to |content|
      invariant ids == IdSet(ClientCalls(content[..i]))
    {
      assert content[..i + 1] == content[..i] + [content[i]];
      ClientCallsSnoc(content[..i], content[i]);
      if content[i].ToolCall? && !content[i].server {
        ids := ids + {content[i].callId};
      }
    }
    assert content[..|content|] == content;
  }

  lemma {:induction false} ClientCallsSnoc(bs: seq<Block>, b: Block)
    ensures ClientCalls(bs + [b]) == ClientCalls(bs) + (if b.ToolCall? && !b.server then [b.callId] else [])
  {
    if bs == [] {
      assert [] + [b] == [b] && [b][1..] == [];
    } else {
      ClientCallsSnoc(bs[1..], b);
      assert (bs + [b])[1..] == bs[1..] + [b];
    }
  }

  method TakeResults(content: seq<Block>, waiting: Waiting) returns (run: seq<Message>, left: Waiting)
    ensures run == Attach(ClientCalls(content), waiting).0 && left == Attach(ClientCalls(content), waiting).1
  {
    hide Attach;
    hide ClientCalls;
    run, left := [], waiting;
    assert content[0..] == content;
    var i := 0;
    while i < |content|
      invariant 0 <= i <= |content|
      invariant run + Attach(ClientCalls(content[i..]), left).0 == Attach(ClientCalls(content), waiting).0
      invariant Attach(ClientCalls(content[i..]), left).1 == Attach(ClientCalls(content), waiting).1
    {
      var block := content[i];
      ClientCallsStep(content, i);
      if block.ToolCall? && !block.server {
        AttachStep(block.callId, ClientCalls(content[i + 1..]), left);
        if Left(left, block.callId) != [] {
          run := run + [left[block.callId][0]];
          left := left[block.callId := left[block.callId][1..]];
        }
      }
      i := i + 1;
    }
    NothingAttached(left);
    NoCalls();
    assert content[i..] == [] && run + [] == run;
  }

  lemma {:induction false} NoCalls()
    ensures ClientCalls([]) == []
  {
  }

  lemma {:induction false} ClientCallsStep(bs: seq<Block>, i: nat)
    requires i < |bs|
    ensures ClientCalls(bs[i..])
         == if bs[i].ToolCall? && !bs[i].server then [bs[i].callId] + ClientCalls(bs[i + 1..]) else ClientCalls(bs[i + 1..])
  {
    assert bs[i..][0] == bs[i] && bs[i..][1..] == bs[i + 1..];
  }

  lemma {:induction false} AttachStep(id: string, ids: seq<string>, q: Waiting)
    ensures Left(q, id) == [] ==> Attach([id] + ids, q) == Attach(ids, q)
    ensures Left(q, id) != [] ==>
              && Attach([id] + ids, q).0 == [q[id][0]] + Attach(ids, q[id := q[id][1..]]).0
              && Attach([id] + ids, q).1 == Attach(ids, q[id := q[id][1..]]).1
  {
    assert ([id] + ids)[1..] == ids;
  }

  lemma {:induction false} CallsOfOne(m: Message)
    ensures Calls([m]) == IdSet(CallsOf(m))
    ensures !m.Assistant? ==> Calls([m]) == {}
  {
    assert [m][1..] == [];
  }

  lemma {:induction false} UnionAssociative(a: set<string>, b: set<string>, c: set<string>)
    ensures a + (b + c) == a + b + c
  {
  }

  lemma {:induction false} CallsConcat(a: seq<Message>, b: seq<Message>)
    ensures Calls(a + b) == Calls(a) + Calls(b)
  {
    hide IdSet;
    if a == [] {
      assert a + b == b;
    } else {
      CallsConcat(a[1..], b);
      assert (a + b)[0] == a[0] && (a + b)[1..] == a[1..] + b;
      UnionAssociative(IdSet(CallsOf(a[0])), Calls(a[1..]), Calls(b));
    }
  }

  lemma {:induction false} ResultsConcat(a: seq<Message>, b: seq<Message>, id: string)
    ensures Results(a + b, id) == Results(a, id) + Results(b, id)
  {
    if a == [] {
      assert a + b == b;
    } else {
      ResultsConcat(a[1..], b, id);
      assert (a + b)[0] == a[0] && (a + b)[1..] == a[1..] + b;
      Associative(if a[0].Tool? && a[0].callId == id then [a[0]] else [], Results(a[1..], id), Results(b, id));
    }
  }

  lemma {:induction false} AllResultsAre(ms: seq<Message>, id: string)
    ensures Left(AllResults(ms), id) == Results(ms, id)
  {
    if ms != [] {
      var front, m := ms[..|ms| - 1], ms[|ms| - 1];
      assert ms == front + [m] && [m][1..] == [];
      AllResultsAre(front, id);
      ResultsConcat(front, [m], id);
    }
  }

  // ----- What stays where it was -----

  /** Messages the view does not move: everything but empty user messages and answers to known calls. */
  function Others(ms: seq<Message>, calls: set<string>): seq<Message> {
    if ms == [] then []
    else (if EmptyUser(ms[0]) || Answers(ms[0], calls) then [] else [ms[0]]) + Others(ms[1..], calls)
  }

  lemma {:induction false} OthersConcat(a: seq<Message>, b: seq<Message>, calls: set<string>)
    ensures Others(a + b, calls) == Others(a, calls) + Others(b, calls)
  {
    if a == [] {
      assert a + b == b;
    } else {
      OthersConcat(a[1..], b, calls);
      assert (a + b)[0] == a[0] && (a + b)[1..] == a[1..] + b;
      Associative(if EmptyUser(a[0]) || Answers(a[0], calls) then [] else [a[0]], Others(a[1..], calls), Others(b, calls));
    }
  }

  /** Waiting results are filed under the call they answer. */
  ghost predicate Filed(q: Waiting) {
    forall id, k :: id in q && 0 <= k < |q[id]| ==> q[id][k].Tool? && q[id][k].callId == id
  }

  predicate OnlyAnswers(run: seq<Message>, calls: set<string>) {
    forall k :: 0 <= k < |run| ==> Answers(run[k], calls)
  }

  lemma {:induction false} AttachFiled(ids: seq<string>, q: Waiting, calls: set<string>)
    requires Filed(q) && forall k :: 0 <= k < |ids| ==> ids[k] in calls
    ensures Filed(Attach(ids, q).1) && OnlyAnswers(Attach(ids, q).0, calls)
    decreases |ids|
  {
    if ids != [] {
      if Left(q, ids[0]) == [] {
        AttachFiled(ids[1..], q, calls);
      } else {
        RestFiled(q, ids[0]);
        AttachFiled(ids[1..], q[ids[0] := q[ids[0]][1..]], calls);
      }
    }
  }

  lemma {:induction false} AnswersAreMoved(run: seq<Message>, calls: set<string>)
    requires OnlyAnswers(run, calls)
    ensures Others(run, calls) == []
  {
    if run != [] { AnswersAreMoved(run[1..], calls); }
  }

  /** The view of a nonempty history, message by message. */
  lemma {:induction false} OrderHead(ms: seq<Message>, calls: set<string>, q: Waiting)
    requires ms != []
    ensures Order(ms, calls, q)
         == if EmptyUser(ms[0]) || Answers(ms[0], calls) then Order(ms[1..], calls, q)
            else [ms[0]] + Attach(CallsOf(ms[0]), q).0 + Order(ms[1..], calls, Attach(CallsOf(ms[0]), q).1)
  {
  }

  lemma {:induction false} OthersHead(m: Message, run: seq<Message>, calls: set<string>)
    requires OnlyAnswers(run, calls) && !EmptyUser(m) && !Answers(m, calls)
    ensures Others([m] + run, calls) == [m]
  {
    AnswersAreMoved(run, calls);
    assert ([m] + run)[1..] == run;
  }

  lemma {:induction false} OthersStep(ms: seq<Message>, calls: set<string>)
    requires ms != []
    ensures Others(ms, calls)
         == if EmptyUser(ms[0]) || Answers(ms[0], calls) then Others(ms[1..], calls)
            else [ms[0]] + Others(ms[1..], calls)
  {
    NothingBefore(Others(ms[1..], calls));
  }

  lemma {:induction false} OrderKeepsOthers(ms: seq<Message>, calls: set<string>, q: Waiting)
    requires Filed(q) && Calls(ms) <= calls
    ensures Others(Order(ms, calls, q), calls) == Others(ms, calls)
    decreases |ms|
  {
    if ms != [] {
      var m := ms[0];
      OrderHead(ms, calls, q);
      OthersStep(ms, calls);
      if EmptyUser(m) || Answers(m, calls) {
        OrderKeepsOthers(ms[1..], calls, q);
      } else {
        var run, end := Attach(CallsOf(m), q).0, Attach(CallsOf(m), q).1;
        AttachFiled(CallsOf(m), q, calls);
        OrderKeepsOthers(ms[1..], calls, end);
        OthersHead(m, run, calls);
        OthersConcat([m] + run, Order(ms[1..], calls, end), calls);
      }
      hide *;
    }
  }


  // ----- Which results are shown -----

  function Count(ids: seq<string>, id: string): nat {
    if ids == [] then 0 else (if ids[0] == id then 1 else 0) + Count(ids[1..], id)
  }

  /** How often `id` is called in `ms`. */
  function CallCount(ms: seq<Message>, id: string): nat {
    if ms == [] then 0 else Count(CallsOf(ms[0]), id) + CallCount(ms[1..], id)
  }

  lemma {:induction false} AttachResults(ids: seq<string>, q: Waiting, id: string)
    requires Filed(q)
    ensures Results(Attach(ids, q).0, id) + Left(Attach(ids, q).1, id) == Left(q, id)
    ensures |Results(Attach(ids, q).0, id)| == Min(|Left(q, id)|, Count(ids, id))
    decreases |ids|
  {
    if ids == [] {
      NothingAttached(q);
      NothingBefore(Left(q, id));
    } else {
      var first, later := ids[0], ids[1..];
      assert ids == [first] + later;
      AttachStep(first, later, q);
      if Left(q, first) == [] {
        AttachResults(later, q, id);
      } else {
        RestFiled(q, first);
        var head := q[first][0];
        var rest: Waiting := q[first := q[first][1..]];
        AttachResults(later, rest, id);
        HeadResults(head, Attach(later, rest).0, id);
        LeftRest(q, first, id);
        Associative(if first == id then [head] else [], Results(Attach(later, rest).0, id),
                    Left(Attach(later, rest).1, id));
      }
      hide Attach;
      hide Results;
      hide Filed;
      hide Left;
    }
  }

  lemma {:induction false} LeftRest(q: Waiting, first: string, id: string)
    requires Left(q, first) != []
    ensures var rest: Waiting := q[first := q[first][1..]];
            Left(q, id) == (if first == id then [q[first][0]] else []) + Left(rest, id)
  {
  }


  lemma {:induction false} HeadResults(m: Message, run: seq<Message>, id: string)
    requires m.Tool?
    ensures Results([m] + run, id) == (if m.callId == id then [m] else []) + Results(run, id)
  {
    assert ([m] + run)[1..] == run;
  }

  lemma {:induction false} RestFiled(q: Waiting, id: string)
    requires Filed(q) && Left(q, id) != []
    ensures Filed(q[id := q[id][1..]]) && q[id][0].Tool? && q[id][0].callId == id
  {
    var rest: Waiting := q[id := q[id][1..]];
    forall d, k | d in rest && 0 <= k < |rest[d]| ensures rest[d][k].Tool? && rest[d][k].callId == d {
      assert rest[d][k] == (if d == id then q[d][k + 1] else q[d][k]);
    }
  }

  lemma {:induction false} ResultsHead(m: Message, run: seq<Message>, id: string)
    requires !m.Tool? || m.callId != id
    ensures Results([m] + run, id) == Results(run, id)
  {
    assert ([m] + run)[1..] == run;
    NothingBefore(Results(run, id));
  }

  lemma {:induction false} OrderResults(ms: seq<Message>, calls: set<string>, q: Waiting, id: string)
    requires Filed(q) && Calls(ms) <= calls && id in calls
    ensures Results(Order(ms, calls, q), id) == Left(q, id)[..Min(|Left(q, id)|, CallCount(ms, id))]
    decreases |ms|
  {
    if ms == [] {
      assert Left(q, id)[..0] == [];
    } else {
      var m := ms[0];
      OrderHead(ms, calls, q);
      CallCountStep(ms, id);
      if EmptyUser(m) || Answers(m, calls) {
        OrderResults(ms[1..], calls, q, id);
      } else {
        var run, end := Attach(CallsOf(m), q).0, Attach(CallsOf(m), q).1;
        AttachFiled(CallsOf(m), q, calls);
        AttachResults(CallsOf(m), q, id);
        OrderResults(ms[1..], calls, end, id);
        ResultsConcat([m] + run, Order(ms[1..], calls, end), id);
        ResultsHead(m, run, id);
        TakeInParts(Left(q, id), Results(run, id), Left(end, id), Count(CallsOf(m), id), CallCount(ms[1..], id));
      }
      hide *;
    }
  }

  lemma {:induction false} CallCountStep(ms: seq<Message>, id: string)
    requires ms != []
    ensures CallCount(ms, id) == Count(CallsOf(ms[0]), id) + CallCount(ms[1..], id)
    ensures EmptyUser(ms[0]) || ms[0].Tool? ==> Count(CallsOf(ms[0]), id) == 0
  {
  }


  lemma {:induction false} TakeInParts(all: seq<Message>, first: seq<Message>, later: seq<Message>, a: nat, b: nat)
    requires first + later == all && |first| == Min(|all|, a)
    ensures first + later[..Min(|later|, b)] == all[..Min(|all|, a + b)]
  {
  }

  lemma {:induction false} ResultsFiled(ms: seq<Message>)
    ensures Filed(AllResults(ms))
  {
    if ms != [] { ResultsFiled(ms[..|ms| - 1]); }
  }

  /** Other messages keep their order, and the n-th call of an ID is shown with the n-th result recorded
      for it: of each ID as many results are shown, in order, as there are calls to take them. */
  lemma {:induction false} ViewPlacesResults(ms: seq<Message>, id: string)
    ensures Others(View(ms), Calls(ms)) == Others(ms, Calls(ms))
    ensures id in Calls(ms) ==>
              Results(View(ms), id) == Results(ms, id)[..Min(|Results(ms, id)|, CallCount(ms, id))]
  {
    ResultsFiled(ms);
    OrderKeepsOthers(ms, Calls(ms), AllResults(ms));
    AllResultsAre(ms, id);
    if id in Calls(ms) { OrderResults(ms, Calls(ms), AllResults(ms), id); }
  }

  lemma {:induction false} OthersAre(ms: seq<Message>, calls: set<string>, m: Message)
    ensures m in Others(ms, calls) <==> m in ms && m != User([]) && !(m.Tool? && m.callId in calls)
  {
    if ms != [] { OthersAre(ms[1..], calls, m); }
  }

  lemma {:induction false} NoEmptyUser(ms: seq<Message>, calls: set<string>, q: Waiting)
    requires Filed(q) && Calls(ms) <= calls
    ensures User([]) !in Order(ms, calls, q)
    decreases |ms|
  {
    hide Order;
    NothingOrdered(calls, q);
    if ms != [] {
      OrderHead(ms, calls, q);
      if EmptyUser(ms[0]) || Answers(ms[0], calls) {
        NoEmptyUser(ms[1..], calls, q);
      } else {
        CallsKnown(ms, calls);
        AttachFiled(CallsOf(ms[0]), q, calls);
        NoEmptyUser(ms[1..], calls, Attach(CallsOf(ms[0]), q).1);
      }
    }
  }

  lemma {:induction false} CallsKnown(ms: seq<Message>, calls: set<string>)
    requires ms != [] && Calls(ms) <= calls
    ensures forall k :: 0 <= k < |CallsOf(ms[0])| ==> CallsOf(ms[0])[k] in calls
    ensures Calls(ms[1..]) <= calls
  {
    assert forall k :: 0 <= k < |CallsOf(ms[0])| ==> CallsOf(ms[0])[k] in IdSet(CallsOf(ms[0]));
  }

  lemma {:induction false} ClientCallsAre(bs: seq<Block>, id: string)
    ensures id in ClientCalls(bs)
       <==> exists j :: 0 <= j < |bs| && bs[j].ToolCall? && bs[j].callId == id && !bs[j].server
  {
    if bs != [] {
      ClientCallsAre(bs[1..], id);
      if j :| 0 <= j < |bs| && bs[j].ToolCall? && bs[j].callId == id && !bs[j].server {
        if j > 0 { assert bs[1..][j - 1] == bs[j]; }
      }
    }
  }

  /** The call IDs whose results are moved are those of the calls that the client runs, not the provider. */
  lemma {:induction false} CallsAre(ms: seq<Message>, id: string)
    ensures id in Calls(ms)
       <==> exists i, j :: 0 <= i < |ms| && ms[i].Assistant? && 0 <= j < |ms[i].content| && ms[i].content[j].ToolCall?
                           && ms[i].content[j].callId == id && !ms[i].content[j].server
  {
    if ms != [] {
      CallsAre(ms[1..], id);
      if ms[0].Assistant? { ClientCallsAre(ms[0].content, id); }
      if i, j :| 0 <= i < |ms| && ms[i].Assistant? && 0 <= j < |ms[i].content| && ms[i].content[j].ToolCall?
                 && ms[i].content[j].callId == id && !ms[i].content[j].server
      {
        if i > 0 { assert ms[1..][i - 1] == ms[i]; }
      }
    }
  }

  /** Of the messages that are not results, exactly the user messages without content are not shown, and nothing
      is shown that was not there. */
  lemma {:induction false} ViewShows(ms: seq<Message>, m: Message)
    requires !m.Tool?
    ensures m in View(ms) <==> m in ms && m != User([])
  {
    ViewPlacesResults(ms, "");
    OthersAre(ms, Calls(ms), m);
    OthersAre(View(ms), Calls(ms), m);
    ResultsFiled(ms);
    NoEmptyUser(ms, Calls(ms), AllResults(ms));
  }

  // ----- Ordered conversations -----

  /** What follows the results of `ids` at the front of `ms`; `None` if a call's result is somewhere else. */
  function AfterResults(ids: seq<string>, ms: seq<Message>): Option<seq<Message>>
    decreases |ids|
  {
    if ids == [] then Some(ms)
    else if ms != [] && ms[0].Tool? && ms[0].callId == ids[0] then AfterResults(ids[1..], ms[1..])
    else if Results(ms, ids[0]) == [] then AfterResults(ids[1..], ms)
    else None
  }

  lemma {:induction false} AfterIsShorter(ids: seq<string>, ms: seq<Message>)
    ensures AfterResults(ids, ms).Some? ==> |AfterResults(ids, ms).value| <= |ms|
    decreases |ids|
  {
    if ids != [] {
      if ms != [] && ms[0].Tool? && ms[0].callId == ids[0] { AfterIsShorter(ids[1..], ms[1..]); }
      else { AfterIsShorter(ids[1..], ms); }
    }
  }

  /** No empty user message, and every answer to a call in `calls` stands in the run after its call. */
  predicate Tidy(ms: seq<Message>, calls: set<string>)
    decreases |ms|
  {
    if ms == [] then true
    else if EmptyUser(ms[0]) || Answers(ms[0], calls) then false
    else
      AfterIsShorter(CallsOf(ms[0]), ms[1..]);
      match AfterResults(CallsOf(ms[0]), ms[1..])
      case None => false
      case Some(rest) => Tidy(rest, calls)
  }

  /** The waiting results of the calls that matter are the ones still to come in `ms`. */
  ghost predicate Expects(q: Waiting, ms: seq<Message>, calls: set<string>) {
    forall id :: id in calls ==> Left(q, id) == Results(ms, id)
  }

  lemma {:induction false} ExpectsRest(ms: seq<Message>, q: Waiting, calls: set<string>)
    requires Expects(q, ms, calls) && ms != [] && Answers(ms[0], calls)
    ensures var id := ms[0].callId;
            && Left(q, id) != [] && q[id][0] == ms[0]
            && Expects(q[id := q[id][1..]], ms[1..], calls)
  {
    var c := ms[0].callId;
    assert Left(q, c) == Results(ms, c) == [ms[0]] + Results(ms[1..], c);
    var rest: Waiting := q[c := q[c][1..]];
    forall id | id in calls ensures Left(rest, id) == Results(ms[1..], id) {
      assert Left(q, id) == Results(ms, id);
    }
  }

  lemma {:induction false} AttachTakesRun(ids: seq<string>, ms: seq<Message>, q: Waiting, calls: set<string>)
    requires Expects(q, ms, calls) && (forall k :: 0 <= k < |ids| ==> ids[k] in calls)
    requires AfterResults(ids, ms).Some?
    ensures ms == Attach(ids, q).0 + AfterResults(ids, ms).value
    ensures Expects(Attach(ids, q).1, AfterResults(ids, ms).value, calls)
    ensures OnlyAnswers(Attach(ids, q).0, calls)
    decreases |ids|
  {
    hide Attach;
    hide Results;
    if ids == [] {
      NothingAttached(q);
    } else {
      var id, later := ids[0], ids[1..];
      assert ids[0] in calls && ids == [id] + later;
      AttachStep(id, later, q);
      if ms != [] && ms[0].Tool? && ms[0].callId == id {
        ExpectsRest(ms, q, calls);
        AttachTakesRun(later, ms[1..], q[id := q[id][1..]], calls);
        assert ms == [ms[0]] + ms[1..];
      } else {
        AttachTakesRun(later, ms, q, calls);
      }
    }
  }

  lemma {:induction false} OrderSkips(run: seq<Message>, ms: seq<Message>, calls: set<string>, q: Waiting)
    requires OnlyAnswers(run, calls)
    ensures Order(run + ms, calls, q) == Order(ms, calls, q)
    decreases |run|
  {
    if run == [] {
      assert run + ms == ms;
    } else {
      assert (run + ms)[1..] == run[1..] + ms;
      OrderSkips(run[1..], ms, calls, q);
    }
  }

  lemma {:induction false} TidyStays(ms: seq<Message>, calls: set<string>, q: Waiting)
    requires Tidy(ms, calls) && Calls(ms) <= calls && Expects(q, ms, calls)
    ensures Order(ms, calls, q) == ms
    decreases |ms|
  {
    if ms != [] {
      var m := ms[0];
      OrderHead(ms, calls, q);
      var rest := AfterResults(CallsOf(m), ms[1..]).value;
      ExpectsTail(ms, q, calls);
      AttachTakesRun(CallsOf(m), ms[1..], q, calls);
      var run, end := Attach(CallsOf(m), q).0, Attach(CallsOf(m), q).1;
      AfterIsShorter(CallsOf(m), ms[1..]);
      CallsConcat(run, rest);
      OrderSkips(run, rest, calls, end);
      TidyStays(rest, calls, end);
      Associative([m], run, rest);
      assert ms == [m] + ms[1..];
    }
  }

  lemma {:induction false} ExpectsTail(ms: seq<Message>, q: Waiting, calls: set<string>)
    requires Expects(q, ms, calls) && ms != [] && !Answers(ms[0], calls)
    ensures Expects(q, ms[1..], calls)
  {
    forall id | id in calls ensures Left(q, id) == Results(ms[1..], id) {
      NothingBefore(Results(ms[1..], id));
      assert Left(q, id) == Results(ms, id);
    }
  }


  /** A call with no result left gets none further on. */
  lemma {:induction false} NoMoreResults(ids: seq<string>, ms: seq<Message>, calls: set<string>, q: Waiting, id: string)
    requires Filed(q) && Calls(ms) <= calls && id in calls && Left(q, id) == []
    requires forall k :: 0 <= k < |ids| ==> ids[k] in calls
    ensures var (run, end) := Attach(ids, q); Results(run + Order(ms, calls, end), id) == []
  {
    AttachResults(ids, q, id);
    var (run, end) := Attach(ids, q);
    AttachFiled(ids, q, calls);
    OrderResults(ms, calls, end, id);
    ResultsConcat(run, Order(ms, calls, end), id);
  }

  lemma {:induction false} FirstIsResult(ms: seq<Message>, id: string)
    ensures ms != [] && ms[0].Tool? && ms[0].callId == id ==> Results(ms, id) != []
  {
  }

  lemma {:induction false} RunIsAfterCall(ids: seq<string>, ms: seq<Message>, calls: set<string>, q: Waiting)
    requires Filed(q) && Calls(ms) <= calls && forall k :: 0 <= k < |ids| ==> ids[k] in calls
    ensures var (run, end) := Attach(ids, q);
            AfterResults(ids, run + Order(ms, calls, end)) == Some(Order(ms, calls, end))
    decreases |ids|
  {
    hide Order;
    hide Attach;
    hide Results;
    if ids == [] {
      NothingAttached(q);
      assert [] + Order(ms, calls, q) == Order(ms, calls, q);
    } else {
      var id, later := ids[0], ids[1..];
      assert ids == [id] + later;
      AttachStep(id, later, q);
      var (run, end) := Attach(ids, q);
      var all := run + Order(ms, calls, end);
      if Left(q, id) == [] {
        NoMoreResults(ids, ms, calls, q, id);
        RunIsAfterCall(later, ms, calls, q);
        FirstIsResult(all, id);
      } else {
        RestFiled(q, id);
        var rest: Waiting := q[id := q[id][1..]];
        RunIsAfterCall(later, ms, calls, rest);
        assert all[1..] == Attach(later, rest).0 + Order(ms, calls, end);
      }
    }
  }

  lemma {:induction false} TidyHead(m: Message, rest: seq<Message>, after: seq<Message>, calls: set<string>)
    requires !EmptyUser(m) && !Answers(m, calls)
    requires AfterResults(CallsOf(m), rest) == Some(after) && Tidy(after, calls)
    ensures Tidy([m] + rest, calls)
  {
    assert ([m] + rest)[1..] == rest;
  }

  lemma {:induction false} OrderIsTidy(ms: seq<Message>, calls: set<string>, q: Waiting)
    requires Filed(q) && Calls(ms) <= calls
    ensures Tidy(Order(ms, calls, q), calls)
    decreases |ms|
  {
    if ms != [] {
      var m := ms[0];
      OrderHead(ms, calls, q);
      if EmptyUser(m) || Answers(m, calls) {
        OrderIsTidy(ms[1..], calls, q);
      } else {
        var run, end := Attach(CallsOf(m), q).0, Attach(CallsOf(m), q).1;
        AttachFiled(CallsOf(m), q, calls);
        RunIsAfterCall(CallsOf(m), ms[1..], calls, q);
        OrderIsTidy(ms[1..], calls, end);
        TidyHead(m, run + Order(ms[1..], calls, end), Order(ms[1..], calls, end), calls);
        Associative([m], run, Order(ms[1..], calls, end));
      }
      hide *;
    }
  }


  lemma {:induction false} OthersHaveCalls(ms: seq<Message>, calls: set<string>)
    ensures Calls(Others(ms, calls)) == Calls(ms)
  {
    if ms != [] {
      OthersHaveCalls(ms[1..], calls);
      if EmptyUser(ms[0]) || Answers(ms[0], calls) {
        assert CallsOf(ms[0]) == [] && Others(ms, calls) == Others(ms[1..], calls);
        assert IdSet(CallsOf(ms[0])) == {};
      } else {
        assert Others(ms, calls)[1..] == Others(ms[1..], calls);
      }
    }
  }

  lemma {:induction false} ViewHasCalls(ms: seq<Message>)
    ensures Calls(View(ms)) == Calls(ms)
  {
    ResultsFiled(ms);
    OrderKeepsOthers(ms, Calls(ms), AllResults(ms));
    OthersHaveCalls(ms, Calls(ms));
    OthersHaveCalls(View(ms), Calls(ms));
  }

  /** The view leaves a conversation alone exactly when it is already ordered, and so ordering it again
      changes nothing. */
  lemma {:induction false} ViewIsStable(ms: seq<Message>)
    ensures View(ms) == ms <==> Tidy(ms, Calls(ms))
    ensures View(View(ms)) == View(ms)
  {
    ResultsFiled(ms);
    OrderIsTidy(ms, Calls(ms), AllResults(ms));
    ViewHasCalls(ms);
    TidyIsView(View(ms));
    if Tidy(ms, Calls(ms)) { TidyIsView(ms); }
  }

  lemma {:induction false} TidyIsView(ms: seq<Message>)
    requires Tidy(ms, Calls(ms))
    ensures View(ms) == ms
  {
    forall id | id in Calls(ms) ensures Left(AllResults(ms), id) == Results(ms, id) {
      AllResultsAre(ms, id);
    }
    TidyStays(ms, Calls(ms), AllResults(ms));
  }

  // ----- Nothing is lost but empty user messages and unclaimed results -----

  function WithoutEmpty(ms: seq<Message>): seq<Message> {
    if ms == [] then [] else (if EmptyUser(ms[0]) then [] else [ms[0]]) + WithoutEmpty(ms[1..])
  }

  function Times(ms: seq<Message>, m: Message): nat {
    if ms == [] then 0 else (if ms[0] == m then 1 else 0) + Times(ms[1..], m)
  }

  lemma {:induction false} TimesIsCount(ms: seq<Message>, m: Message)
    ensures multiset(ms)[m] == Times(ms, m)
  {
    if ms != [] {
      assert ms == [ms[0]] + ms[1..];
      TimesIsCount(ms[1..], m);
    }
  }

  /** How often a message occurs is read off the part of the view it belongs to. */
  lemma {:induction false} TimesInParts(ms: seq<Message>, calls: set<string>, m: Message)
    ensures !EmptyUser(m) && !Answers(m, calls) ==> Times(ms, m) == Times(Others(ms, calls), m)
    ensures m.Tool? ==> Times(ms, m) == Times(Results(ms, m.callId), m)
    ensures Times(WithoutEmpty(ms), m) == if EmptyUser(m) then 0 else Times(ms, m)
  {
    if ms != [] {
      TimesInParts(ms[1..], calls, m);
      TimesCons(ms[0], Others(ms[1..], calls), m);
      TimesCons(ms[0], WithoutEmpty(ms[1..]), m);
      if m.Tool? { TimesCons(ms[0], Results(ms[1..], m.callId), m); }
      NothingBefore(Others(ms[1..], calls));
      NothingBefore(WithoutEmpty(ms[1..]));
      if m.Tool? { NothingBefore(Results(ms[1..], m.callId)); }
    }
  }

  lemma {:induction false} NothingBefore(ms: seq<Message>)
    ensures [] + ms == ms
  {
  }

  lemma {:induction false} TimesCons(first: Message, ms: seq<Message>, m: Message)
    ensures Times([first] + ms, m) == (if first == m then 1 else 0) + Times(ms, m)
  {
    assert ([first] + ms)[1..] == ms;
  }

  /** No known call ID has more results than calls. */
  predicate AllClaimed(ms: seq<Message>) {
    forall id :: id in Calls(ms) ==> |Results(ms, id)| <= CallCount(ms, id)
  }

  lemma {:induction false} SameTimes(ms: seq<Message>, m: Message)
    requires AllClaimed(ms)
    ensures Times(View(ms), m) == Times(WithoutEmpty(ms), m)
  {
    var calls := Calls(ms);
    TimesInParts(ms, calls, m);
    TimesInParts(View(ms), calls, m);
    ResultsFiled(ms);
    if Answers(m, calls) {
      ViewPlacesResults(ms, m.callId);
      assert Results(ms, m.callId)[..|Results(ms, m.callId)|] == Results(ms, m.callId);
    } else if EmptyUser(m) {
      NoEmptyShown(ms, calls, AllResults(ms), m);
    } else {
      ViewPlacesResults(ms, "");
    }
  }

  lemma {:induction false} TimesConcat(a: seq<Message>, b: seq<Message>, m: Message)
    ensures Times(a + b, m) == Times(a, m) + Times(b, m)
  {
    if a == [] {
      assert a + b == b;
    } else {
      TimesConcat(a[1..], b, m);
      assert (a + b)[1..] == a[1..] + b;
    }
  }

  lemma {:induction false} AnswersOnly(run: seq<Message>, calls: set<string>, m: Message)
    requires OnlyAnswers(run, calls) && EmptyUser(m)
    ensures Times(run, m) == 0
  {
    if run != [] { AnswersOnly(run[1..], calls, m); }
  }

  lemma {:induction false} NoEmptyShown(ms: seq<Message>, calls: set<string>, q: Waiting, m: Message)
    requires EmptyUser(m) && Filed(q) && Calls(ms) <= calls
    ensures Times(Order(ms, calls, q), m) == 0
    decreases |ms|
  {
    if ms != [] {
      var first := ms[0];
      if EmptyUser(first) || Answers(first, calls) {
        NoEmptyShown(ms[1..], calls, q, m);
      } else {
        var (run, end) := Attach(CallsOf(first), q);
        AttachFiled(CallsOf(first), q, calls);
        NoEmptyShown(ms[1..], calls, end, m);
        AnswersOnly(run, calls, m);
        TimesConcat([first] + run, Order(ms[1..], calls, end), m);
        TimesCons(first, run, m);
      }
    }
  }

  lemma {:induction false} ResultsTimes(ms: seq<Message>, id: string, m: Message)
    ensures Times(Results(ms, id), m) == if m.Tool? && m.callId == id then Times(ms, m) else 0
  {
    if ms != [] {
      ResultsTimes(ms[1..], id, m);
      TimesCons(ms[0], Results(ms[1..], id), m);
      NothingBefore(Results(ms[1..], id));
    }
  }

  lemma {:induction false} SameResultCount(a: seq<Message>, b: seq<Message>, id: string)
    requires multiset(a) == multiset(b)
    ensures |Results(a, id)| == |Results(b, id)|
  {
    forall m ensures multiset(Results(a, id))[m] == multiset(Results(b, id))[m] {
      TimesIsCount(a, m);
      TimesIsCount(b, m);
      TimesIsCount(Results(a, id), m);
      TimesIsCount(Results(b, id), m);
      ResultsTimes(a, id, m);
      ResultsTimes(b, id, m);
    }
    assert multiset(Results(a, id)) == multiset(Results(b, id));
    assert |multiset(Results(a, id))| == |multiset(Results(b, id))|;
  }

  lemma {:induction false} ResultsWithoutEmpty(ms: seq<Message>, id: string)
    ensures Results(WithoutEmpty(ms), id) == Results(ms, id)
  {
    if ms != [] {
      ResultsWithoutEmpty(ms[1..], id);
      ResultsConcat([ms[0]], WithoutEmpty(ms[1..]), id);
      assert [ms[0]][1..] == [];
      NothingBefore(WithoutEmpty(ms[1..]));
    }
  }

  /** The view is the history rearranged, less its empty user messages, exactly when no known call ID has
      more results than calls. */
  lemma {:induction false} ViewIsPermutationIff(ms: seq<Message>)
    ensures multiset(View(ms)) == multiset(WithoutEmpty(ms)) <==> AllClaimed(ms)
  {
    hide View;
    if AllClaimed(ms) {
      forall m ensures multiset(View(ms))[m] == multiset(WithoutEmpty(ms))[m] {
        SameTimes(ms, m);
        TimesIsCount(View(ms), m);
        TimesIsCount(WithoutEmpty(ms), m);
      }
    } else if multiset(View(ms)) == multiset(WithoutEmpty(ms)) {
      var id :| id in Calls(ms) && |Results(ms, id)| > CallCount(ms, id);
      SameResultCount(View(ms), WithoutEmpty(ms), id);
      ResultsWithoutEmpty(ms, id);
      ViewPlacesResults(ms, id);
      assert false;
    }
  }
}
