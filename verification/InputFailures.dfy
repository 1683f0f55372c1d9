/** Two runs in which inputs written before the welcome cost the client its attachment. */
module InputFailures {
  import opened Basics
  import opened InputLease
  import opened InputSession

  const ONE := Input(1, [1])
  const TWO := Input(2, [2])

  lemma {:induction false} RunCons(s: System, a: Action, rest: seq<Action>)
    ensures Run(s, [a] + rest) == Run(Step(s, a), rest)
  {
    hide Step;
    assert ([a] + rest)[0] == a && ([a] + rest)[1..] == rest;
  }

  lemma {:induction false} RunNone(s: System)
    ensures Run(s, []) == s
  {
  }

  lemma {:induction false} AboveBoth(sequence: nat)
    ensures Above([ONE, TWO], sequence)
         == if sequence == 0 then [ONE, TWO] else if sequence == 1 then [TWO] else []
  {
    assert [ONE, TWO][1..] == [TWO] && [TWO][1..] == [];
    assert Above([TWO], sequence) == (if sequence < 2 then [TWO] else []) + Above([], sequence);
  }

  lemma {:induction false} OnlyLink(was: Link, now: Link)
    ensures [was][0 := now] == [now]
  {
  }

  /** What the client sends on is taken first in, first out. */
  lemma {:induction false} Tail<T>(x: T, rest: seq<T>)
    ensures ([x] + rest)[1..] == rest
  {
  }

  /** The only attachment so far, with the first lease. */
  function Alone(down: seq<Reply>): Link { Link(true, None, Some(0), false, [], down) }

  /** The first lease, held by the first attachment. */
  function First(sequence: nat): seq<Lease> { [Lease(sequence, Some(0), false)] }

  /** The server hears the hello on the only attachment, and the client its answer. */
  lemma {:induction false} HelloAlone(s: System)
    requires s.links == [NewLink(None)] && s.leases == []
    ensures Step(s, ServerHello(0)) == s.(leases := First(0), links := [Alone([Welcomed(0, 0)])])
  {
    OnlyLink(NewLink(None), Alone([]));
    OnlyLink(Alone([]), Alone([Welcomed(0, 0)]));
    assert [] + [Lease(0, None, false)] == [Lease(0, None, false)];
    assert [Lease(0, None, false)][0 := First(0)[0]] == First(0);
    assert [] + [Welcomed(0, 0)] == [Welcomed(0, 0)];
  }

  lemma {:induction false} HearsReply(s: System, reply: Reply, rest: seq<Reply>)
    requires s.links == [Alone([reply] + rest)] && s.writer.open
    ensures Step(s, ClientReceive)
         == s.(links := [Alone(rest)],
               writer := match reply
                         case Welcomed(n, received) => s.writer.OnWelcome(n, received)
                         case InputAck(sequence) => s.writer.OnAck(sequence))
  {
    Tail(reply, rest);
    OnlyLink(s.links[0], Alone(rest));
  }

  lemma {:induction false} TakesInput(s: System, at: nat, down: seq<Reply>, input: Input, rest: seq<Input>)
    requires s.leases == First(at) && s.links == [Alone(down)]
    requires s.writer.up == [input] + rest && input.sequence <= at + 1
    ensures Step(s, ServerInput(0, false))
         == s.(writer := s.writer.(up := rest), leases := First(Max(at, input.sequence)),
               delivered := if input.sequence <= at then s.delivered else s.delivered + [Given(0, input)],
               links := [Alone(down + [InputAck(input.sequence)])])
  {
    Tail(input, rest);
    assert First(at)[0 := First(input.sequence)[0]] == First(input.sequence);
    OnlyLink(s.links[0], Alone(down + [InputAck(input.sequence)]));
  }

  // ----- Two early writes -----

  /** Both inputs were sent at once and again after the welcome, and the server has them. */
  const REPEATED := System([[1], [2]], [], First(0), Writer(true, true, Some(0), 2, 0, [ONE, TWO], [ONE, TWO, ONE, TWO]),
                           [Alone([])])

  const TWICE := [Write([1])] + ([Write([2])] + ([ServerHello(0)] + ([ClientReceive] + [])))

  lemma {:induction false} BothAreRepeated()
    ensures Run(START, TWICE) == REPEATED
  {
    hide Run;
    var a := START.(written := [[1]], writer := Writer(true, false, None, 1, 0, [ONE], [ONE]));
    assert Step(START, Write([1])) == a;
    var b := START.(written := [[1], [2]], writer := Writer(true, false, None, 2, 0, [ONE, TWO], [ONE, TWO]));
    assert Step(a, Write([2])) == b;
    var c := b.(leases := First(0), links := [Alone([Welcomed(0, 0)])]);
    HelloAlone(b);
    assert [Welcomed(0, 0)] + [] == [Welcomed(0, 0)];
    HearsReply(c, Welcomed(0, 0), []);
    AboveBoth(0);
    assert [ONE, TWO] + [ONE, TWO] == [ONE, TWO, ONE, TWO];
    RunNone(REPEATED);
    RunCons(c, ClientReceive, []);
    RunCons(b, ServerHello(0), [ClientReceive] + []);
    RunCons(a, Write([2]), [ServerHello(0)] + ([ClientReceive] + []));
    RunCons(START, Write([1]), [Write([2])] + ([ServerHello(0)] + ([ClientReceive] + [])));
  }

  const BOTH := [Given(0, ONE), Given(0, TWO)]

  const ACKS := [InputAck(1), InputAck(2)]

  /** The server took all four: two were delivered and two acknowledged as duplicates. */
  const ANSWERED := REPEATED.(delivered := BOTH, leases := First(2), writer := REPEATED.writer.(up := []),
                              links := [Alone([InputAck(1)] + ([InputAck(2)] + ACKS))])

  const TAKE := ServerInput(0, false)

  lemma {:induction false} AllFourAreAnswered(rest: seq<Action>)
    ensures Run(REPEATED, [TAKE] + ([TAKE] + ([TAKE] + ([TAKE] + rest)))) == Run(ANSWERED, rest)
  {
    hide Run;
    hide Step;
    assert [ONE] + [TWO, ONE, TWO] == [ONE, TWO, ONE, TWO] && [TWO] + [ONE, TWO] == [TWO, ONE, TWO];
    assert [ONE] + [TWO] == [ONE, TWO] && [TWO] + [] == [TWO];
    assert [] + [InputAck(1)] == [InputAck(1)] && [InputAck(1)] + [InputAck(2)] == ACKS;
    assert ACKS + [InputAck(1)] == [InputAck(1), InputAck(2), InputAck(1)];
    assert [InputAck(1), InputAck(2), InputAck(1)] + [InputAck(2)] == [InputAck(1)] + ([InputAck(2)] + ACKS);
    assert [] + [Given(0, ONE)] == [Given(0, ONE)] && [Given(0, ONE)] + [Given(0, TWO)] == BOTH;
    TakesInput(REPEATED, 0, [], ONE, [TWO, ONE, TWO]);
    var a := REPEATED.(delivered := [Given(0, ONE)], leases := First(1), links := [Alone([InputAck(1)])],
                       writer := REPEATED.writer.(up := [TWO, ONE, TWO]));
    assert Step(REPEATED, TAKE) == a;
    TakesInput(a, 1, [InputAck(1)], TWO, [ONE, TWO]);
    var b := a.(delivered := BOTH, leases := First(2), writer := a.writer.(up := [ONE, TWO]), links := [Alone(ACKS)]);
    assert Step(a, TAKE) == b;
    TakesInput(b, 2, ACKS, ONE, [TWO]);
    var c := b.(writer := b.writer.(up := [TWO]), links := [Alone([InputAck(1), InputAck(2), InputAck(1)])]);
    assert Step(b, TAKE) == c;
    TakesInput(c, 2, [InputAck(1), InputAck(2), InputAck(1)], TWO, []);
    assert Step(c, TAKE) == ANSWERED;
    RunCons(REPEATED, TAKE, [TAKE] + ([TAKE] + ([TAKE] + rest)));
    RunCons(a, TAKE, [TAKE] + ([TAKE] + rest));
    RunCons(b, TAKE, [TAKE] + rest);
    RunCons(c, TAKE, rest);
  }

  lemma {:induction false} ThirdAckGoesBack()
    ensures var t := Run(ANSWERED, [ClientReceive] + ([ClientReceive] + ([ClientReceive] + [])));
            !t.writer.open && t.links == [Alone([InputAck(2)])]
            && t.delivered == ANSWERED.delivered && t.written == ANSWERED.written
  {
    hide Run;
    hide Step;
    HearsReply(ANSWERED, InputAck(1), [InputAck(2)] + ACKS);
    AboveBoth(1);
    var a := ANSWERED.(writer := ANSWERED.writer.(lastAck := 1, pending := [TWO]), links := [Alone([InputAck(2)] + ACKS)]);
    assert Step(ANSWERED, ClientReceive) == a;
    HearsReply(a, InputAck(2), ACKS);
    var b := Step(a, ClientReceive);
    assert ACKS == [InputAck(1)] + [InputAck(2)];
    HearsReply(b, InputAck(1), [InputAck(2)]);
    var c := Step(b, ClientReceive);
    RunNone(c);
    RunCons(ANSWERED, ClientReceive, [ClientReceive] + ([ClientReceive] + []));
    RunCons(a, ClientReceive, [ClientReceive] + []);
    RunCons(b, ClientReceive, []);
  }

  lemma {:induction false} RunConcat(s: System, a: seq<Action>, b: seq<Action>)
    ensures Run(s, a + b) == Run(Run(s, a), b)
    decreases |a|
  {
    hide Step;
    if a == [] {
      assert a + b == b;
    } else {
      assert (a + b)[0] == a[0] && (a + b)[1..] == a[1..] + b;
      RunConcat(Step(s, a[0]), a[1..], b);
    }
  }

  /** A client that writes two inputs before its welcome is closed by its own acknowledgements: the server
      gets 1, 2, 1, 2 and acknowledges each, and the third acknowledgement goes backwards. */
  lemma {:induction false} TwoEarlyWritesClose() returns (actions: seq<Action>)
    ensures var t := Run(START, actions); !t.writer.open && t.delivered == BOTH && t.written == [[1], [2]]
  {
    hide Run;
    var hears := [ClientReceive] + ([ClientReceive] + ([ClientReceive] + []));
    var takes := [TAKE] + ([TAKE] + ([TAKE] + ([TAKE] + hears)));
    BothAreRepeated();
    AllFourAreAnswered(hears);
    ThirdAckGoesBack();
    RunConcat(START, TWICE, takes);
    actions := TWICE + takes;
  }

  // ----- One early write behind an undelivered input -----

  /** An input sent on an attachment that was given up before the server read it, and one written on the next
      attachment before its welcome. */
  const BEHIND := System([[1], [2]], [], [Lease(0, None, false)],
                         Writer(true, false, Some(0), 2, 0, [ONE, TWO], [TWO]),
                         [Link(false, None, Some(0), false, [ONE], []), NewLink(Some(0))])

  const LOSES :=
    [ServerHello(0)] + ([ClientReceive] + ([Write([1])] + ([ServerClose(0)] + ([Reconnect] + ([Write([2])] + [])))))

  lemma {:induction false} BehindIsReached()
    ensures Run(START, LOSES) == BEHIND
  {
    hide Run;
    HelloAlone(START);
    var a := START.(leases := First(0), links := [Alone([Welcomed(0, 0)])]);
    assert [Welcomed(0, 0)] + [] == [Welcomed(0, 0)];
    HearsReply(a, Welcomed(0, 0), []);
    var b := a.(links := [Alone([])], writer := Writer(true, true, Some(0), 0, 0, [], []));
    assert Step(a, ClientReceive) == b;
    var c := b.(written := [[1]], writer := Writer(true, true, Some(0), 1, 0, [ONE], [ONE]));
    assert Step(b, Write([1])) == c;
    var d := c.(leases := [Lease(0, None, false)], links := [Alone([]).(open := false)]);
    OnlyLink(Alone([]), Alone([]).(open := false));
    assert First(0)[0 := Lease(0, None, false)] == [Lease(0, None, false)];
    assert Step(c, ServerClose(0)) == d;
    var e := d.(writer := Writer(true, false, Some(0), 1, 0, [ONE], []),
                links := [Link(false, None, Some(0), false, [ONE], []), NewLink(Some(0))]);
    OnlyLink(d.links[0], d.links[0].(up := [ONE]));
    assert Step(d, Reconnect) == e;
    assert [ONE] + [TWO] == [ONE, TWO];
    assert Step(e, Write([2])) == BEHIND;
    RunNone(BEHIND);
    RunCons(e, Write([2]), []);
    RunCons(d, Reconnect, [Write([2])] + []);
    RunCons(c, ServerClose(0), [Reconnect] + ([Write([2])] + []));
    RunCons(b, Write([1]), [ServerClose(0)] + ([Reconnect] + ([Write([2])] + [])));
    RunCons(a, ClientReceive, [Write([1])] + ([ServerClose(0)] + ([Reconnect] + ([Write([2])] + []))));
    RunCons(START, ServerHello(0),
            [ClientReceive] + ([Write([1])] + ([ServerClose(0)] + ([Reconnect] + ([Write([2])] + [])))));
  }

  /** One input written before the welcome, while an earlier one is still undelivered, reaches the server ahead
      of it and costs the client its attachment. */
  lemma {:induction false} EarlyWriteLeavesGap() returns (actions: seq<Action>)
    ensures var t := Run(START, actions);
            t.links != [] && t.links[|t.links| - 1].failed && t.delivered == [] && |t.written| == 2
  {
    var last := [ServerHello(1)] + ([ServerInput(1, false)] + []);
    BehindIsReached();
    var a := Step(BEHIND, ServerHello(1));
    assert BEHIND.leases[0 := Lease(0, Some(1), false)] == [Lease(0, Some(1), false)];
    RunCons(BEHIND, ServerHello(1), [ServerInput(1, false)] + []);
    RunCons(a, ServerInput(1, false), []);
    RunNone(Step(a, ServerInput(1, false)));
    RunConcat(START, LOSES, last);
    actions := LOSES + last;
  }
}
