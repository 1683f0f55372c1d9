/** Two runs in which the process is given one input twice. */
module InputRepeats {
  import opened Basics
  import opened InputLease
  import opened InputHandover

  const ONE := Input(1, [1])

  lemma {:induction false} Goes(h: Handover, m: Move, rest: seq<Move>)
    ensures After(h, [m] + rest) == After(Apply(h, m), rest)
    ensures NeverOverlaps(h, [m] + rest) <==> !Overlaps(h, m) && NeverOverlaps(Apply(h, m), rest)
  {
    hide Apply;
    hide Overlaps;
    assert ([m] + rest)[0] == m && ([m] + rest)[1..] == rest;
  }

  lemma {:induction false} Ends(h: Handover)
    ensures After(h, []) == h && NeverOverlaps(h, [])
  {
  }

  lemma {:induction false} RunConcat(h: Handover, a: seq<Move>, b: seq<Move>)
    ensures After(h, a + b) == After(After(h, a), b)
    ensures NeverOverlaps(h, a + b) <==> NeverOverlaps(h, a) && NeverOverlaps(After(h, a), b)
    decreases |a|
  {
    hide Apply;
    hide Overlaps;
    if a == [] {
      assert a + b == b;
    } else {
      assert (a + b)[0] == a[0] && (a + b)[1..] == a[1..] + b;
      RunConcat(Apply(h, a[0]), a[1..], b);
    }
  }

  /** An attachment with nothing on its channels. */
  function Quiet(open: bool, requested: Option<nat>, lease: Option<nat>): Link {
    Link(open, requested, lease, false, [], [])
  }

  // ----- A hand-over that is still unrecorded -----

  /** The process is being given the only input the client has written. */
  const IN_HAND := Handover(System([[1]], [], [Lease(0, Some(0), false)], Writer(true, true, Some(0), 1, 0, [ONE], []),
                                   [Quiet(true, None, Some(0))]),
                            [Handing(0, 0, ONE, false)], [Given(0, ONE)])

  lemma {:induction false} InputIsInHand() returns (moves: seq<Move>)
    ensures After(LAUNCH, moves) == IN_HAND
  {
    hide After;
    var link := Quiet(true, None, Some(0));
    var a := LAUNCH.(state := START.(leases := [Lease(0, Some(0), false)], links := [link.(down := [Welcomed(0, 0)])]));
    assert Apply(LAUNCH, Does(ServerHello(0))) == a by { FirstHello(START); }
    var b := LAUNCH.(state := a.state.(links := [link], writer := Writer(true, true, Some(0), 0, 0, [], [])));
    assert Apply(a, Does(ClientReceive)) == b by { FirstWelcome(a.state, link); }
    var c := b.(state := b.state.(written := [[1]], writer := Writer(true, true, Some(0), 1, 0, [ONE], [ONE])));
    assert Apply(b, Does(Write([1]))) == c;
    assert Apply(c, Takes(0)) == IN_HAND by { assert [ONE][1..] == []; }
    Ends(IN_HAND);
    Goes(c, Takes(0), []);
    Goes(b, Does(Write([1])), [Takes(0)] + []);
    Goes(a, Does(ClientReceive), [Does(Write([1]))] + ([Takes(0)] + []));
    Goes(LAUNCH, Does(ServerHello(0)), [Does(ClientReceive)] + ([Does(Write([1]))] + ([Takes(0)] + [])));
    moves := [Does(ServerHello(0))] + ([Does(ClientReceive)] + ([Does(Write([1]))] + ([Takes(0)] + [])));
  }

  /** The first hello a server hears asks for no lease, and is given the first. */
  lemma {:induction false} FirstHello(s: System)
    requires s.links == [NewLink(None)] && s.leases == []
    ensures Step(s, ServerHello(0))
         == s.(leases := [Lease(0, Some(0), false)],
               links := [Link(true, None, Some(0), false, [], [Welcomed(0, 0)])])
  {
    var link := Quiet(true, None, Some(0));
    assert [NewLink(None)][0 := link] == [link];
    assert [link][0 := link.(down := [Welcomed(0, 0)])] == [link.(down := [Welcomed(0, 0)])];
    assert [Lease(0, None, false)][0 := Lease(0, Some(0), false)] == [Lease(0, Some(0), false)];
    assert [] + [Lease(0, None, false)] == [Lease(0, None, false)];
    assert link.down + [Welcomed(0, 0)] == [Welcomed(0, 0)];
  }

  lemma {:induction false} FirstWelcome(s: System, link: Link)
    requires s.links == [link.(down := [Welcomed(0, 0)])] && link.down == [] && s.writer == START.writer
    ensures Step(s, ClientReceive) == s.(links := [link], writer := Writer(true, true, Some(0), 0, 0, [], []))
  {
    assert [Welcomed(0, 0)][1..] == [] && s.links[0 := link] == [link];
    assert Above([], 0) == [];
  }

  /** The first attachment was given up while the process was being given its input, and the second one has
      claimed the lease, which still says that nothing was received. */
  const RECLAIMED := Handover(System([[1]], [], [Lease(0, Some(1), false)],
                                     Writer(true, true, Some(0), 1, 0, [ONE], [ONE]),
                                     [Quiet(false, None, Some(0)), Quiet(true, Some(0), Some(0))]),
                              [Handing(0, 0, ONE, false)], [Given(0, ONE)])

  const RECLAIMS := [Does(ServerClose(0))] + ([Does(Reconnect)] + ([Does(ServerHello(1))] + ([Does(ClientReceive)] + [])))

  lemma {:induction false} LeaseIsReclaimed()
    ensures After(IN_HAND, RECLAIMS) == RECLAIMED
  {
    hide After;
    var closed, link := Quiet(false, None, Some(0)), Quiet(true, Some(0), Some(0));
    var idle := [Lease(0, None, false)];
    var a := IN_HAND.(state := IN_HAND.state.(leases := idle, links := [closed]));
    assert Apply(IN_HAND, Does(ServerClose(0))) == a by {
      assert IN_HAND.state.links[0 := closed] == [closed];
      assert IN_HAND.state.leases[0 := Lease(0, None, false)] == idle;
    }
    var b := a.(state := a.state.(writer := Writer(true, false, Some(0), 1, 0, [ONE], []),
                                  links := [closed, NewLink(Some(0))]));
    assert Apply(a, Does(Reconnect)) == b by {
      assert a.state.links[0 := closed] == [closed] && [closed] + [NewLink(Some(0))] == [closed, NewLink(Some(0))];
    }
    var c := b.(state := b.state.(leases := [Lease(0, Some(1), false)],
                                  links := [closed, link.(down := [Welcomed(0, 0)])]));
    assert Apply(b, Does(ServerHello(1))) == c by {
      assert b.state.links[1 := link] == [closed, link];
      assert [closed, link][1 := link.(down := [Welcomed(0, 0)])] == [closed, link.(down := [Welcomed(0, 0)])];
      assert link.down + [Welcomed(0, 0)] == [Welcomed(0, 0)];
      assert idle[0 := Lease(0, Some(1), false)] == [Lease(0, Some(1), false)];
    }
    assert Apply(c, Does(ClientReceive)) == RECLAIMED by { WelcomedAgain(c.state, closed, link, 0); }
    Ends(RECLAIMED);
    Goes(c, Does(ClientReceive), []);
    Goes(b, Does(ServerHello(1)), [Does(ClientReceive)] + []);
    Goes(a, Does(Reconnect), [Does(ServerHello(1))] + ([Does(ClientReceive)] + []));
    Goes(IN_HAND, Does(ServerClose(0)), [Does(Reconnect)] + ([Does(ServerHello(1))] + ([Does(ClientReceive)] + [])));
  }

  /** The client sends its only input again when it hears that nothing was received. */
  lemma {:induction false} WelcomedAgain(s: System, was: Link, link: Link, n: nat)
    requires s.links == [was, link.(down := [Welcomed(n, 0)])] && link.down == []
    requires s.writer == Writer(true, false, s.writer.lease, 1, 0, [ONE], [])
    ensures Step(s, ClientReceive)
         == s.(links := [was, link], writer := Writer(true, true, Some(n), 1, 0, [ONE], [ONE]))
  {
    assert [Welcomed(n, 0)][1..] == [] && s.links[1 := link] == [was, link];
    assert Above([ONE], 0) == [ONE] + Above([], 0) && [] + [ONE] == [ONE];
  }

  /** A client whose connection drops while its input is being handed to the process, and which is back before
      that ends, has the input typed twice under one lease. */
  lemma {:induction false} InputIsGivenTwice() returns (moves: seq<Move>)
    ensures After(LAUNCH, moves).given == [Given(0, ONE), Given(0, ONE)] && After(LAUNCH, moves).state.written == [[1]]
  {
    hide After;
    var first := InputIsInHand();
    LeaseIsReclaimed();
    Ends(Apply(RECLAIMED, Takes(1)));
    Goes(RECLAIMED, Takes(1), []);
    RunConcat(IN_HAND, RECLAIMS, [Takes(1)] + []);
    RunConcat(LAUNCH, first, RECLAIMS + ([Takes(1)] + []));
    assert !Busy(RECLAIMED, 1);
    moves := first + (RECLAIMS + ([Takes(1)] + []));
  }

  // ----- A welcome that never arrived -----

  /** The client wrote before it was welcomed; its input was given and recorded, and the attachment is gone with
      the welcome and the acknowledgement still on the way. */
  const UNWELCOMED := Handover(System([[1]], [Given(0, ONE)], [Lease(1, None, false)],
                                      Writer(true, false, None, 1, 0, [ONE], []),
                                      [Link(false, None, Some(0), false, [], [Welcomed(0, 0)])]),
                               [], [Given(0, ONE)])

  const LOSES_WELCOME :=
    [Does(Write([1]))] + ([Does(ServerHello(0))] + ([Takes(0)] + ([Recorded(0, true)] + ([Does(ServerClose(0))] + []))))

  lemma {:induction false} WelcomeIsLost()
    ensures After(LAUNCH, LOSES_WELCOME) == UNWELCOMED && NeverOverlaps(LAUNCH, LOSES_WELCOME)
  {
    hide After;
    hide NeverOverlaps;
    var link := Link(true, None, Some(0), false, [], [Welcomed(0, 0)]);
    var a := LAUNCH.(state := START.(written := [[1]], writer := Writer(true, false, None, 1, 0, [ONE], [ONE])));
    assert Apply(LAUNCH, Does(Write([1]))) == a;
    var b := a.(state := a.state.(leases := [Lease(0, Some(0), false)], links := [link]));
    assert Apply(a, Does(ServerHello(0))) == b by { FirstHello(a.state); }
    var c := Handover(b.state.(writer := Writer(true, false, None, 1, 0, [ONE], [])), [Handing(0, 0, ONE, false)],
                      [Given(0, ONE)]);
    assert Apply(b, Takes(0)) == c by { assert [ONE][1..] == []; }
    var d := Handover(c.state.(leases := [Lease(1, Some(0), false)], delivered := [Given(0, ONE)]), [], [Given(0, ONE)]);
    assert Apply(c, Recorded(0, true)) == d by {
      assert c.state.leases[0 := Lease(1, Some(0), false)] == [Lease(1, Some(0), false)];
      assert c.handing[..0] + c.handing[1..] == [];
    }
    assert Apply(d, Does(ServerClose(0))) == UNWELCOMED by {
      assert d.state.links[0 := link.(open := false)] == [link.(open := false)];
      assert d.state.leases[0 := Lease(1, None, false)] == [Lease(1, None, false)];
    }
    Ends(UNWELCOMED);
    Goes(d, Does(ServerClose(0)), []);
    Goes(c, Recorded(0, true), [Does(ServerClose(0))] + []);
    Goes(b, Takes(0), [Recorded(0, true)] + ([Does(ServerClose(0))] + []));
    Goes(a, Does(ServerHello(0)), [Takes(0)] + ([Recorded(0, true)] + ([Does(ServerClose(0))] + [])));
    Goes(LAUNCH, Does(Write([1])),
         [Does(ServerHello(0))] + ([Takes(0)] + ([Recorded(0, true)] + ([Does(ServerClose(0))] + []))));
  }

  const RETURNS := [Does(Reconnect)] + ([Does(ServerHello(1))] + ([Does(ClientReceive)] + ([Takes(1)] + [])))

  lemma {:induction false} SecondLeaseTakesIt()
    ensures After(UNWELCOMED, RETURNS).given == [Given(0, ONE), Given(1, ONE)]
    ensures After(UNWELCOMED, RETURNS).state.written == [[1]] && NeverOverlaps(UNWELCOMED, RETURNS)
  {
    hide After;
    hide NeverOverlaps;
    var was, link := UNWELCOMED.state.links[0], Quiet(true, None, Some(1));
    var l0, l1 := Lease(1, None, false), Lease(0, Some(1), false);
    var a := UNWELCOMED.(state := UNWELCOMED.state.(links := [was, NewLink(None)]));
    assert Apply(UNWELCOMED, Does(Reconnect)) == a by {
      assert [was][0 := was] == [was] && [was] + [NewLink(None)] == [was, NewLink(None)];
    }
    var b := a.(state := a.state.(leases := [l0, l1], links := [was, link.(down := [Welcomed(1, 0)])]));
    assert Apply(a, Does(ServerHello(1))) == b by {
      assert [was, NewLink(None)][1 := link] == [was, link];
      assert [was, link][1 := link.(down := [Welcomed(1, 0)])] == [was, link.(down := [Welcomed(1, 0)])];
      assert link.down + [Welcomed(1, 0)] == [Welcomed(1, 0)];
      assert [l0] + [Lease(0, None, false)] == [l0, Lease(0, None, false)];
      assert [l0, Lease(0, None, false)][1 := l1] == [l0, l1];
    }
    var c := b.(state := b.state.(links := [was, link], writer := Writer(true, true, Some(1), 1, 0, [ONE], [ONE])));
    assert Apply(b, Does(ClientReceive)) == c by { WelcomedAgain(b.state, was, link, 1); }
    assert !Busy(c, 1);
    assert Apply(c, Takes(1)).given == [Given(0, ONE), Given(1, ONE)];
    Ends(Apply(c, Takes(1)));
    Goes(c, Takes(1), []);
    Goes(b, Does(ClientReceive), [Takes(1)] + []);
    Goes(a, Does(ServerHello(1)), [Does(ClientReceive)] + ([Takes(1)] + []));
    Goes(UNWELCOMED, Does(Reconnect), [Does(ServerHello(1))] + ([Does(ClientReceive)] + ([Takes(1)] + [])));
  }

  /** A client that writes before its first welcome, and whose attachment ends before that arrives, comes back
      without a lease: it is given a new one, sends the input again and has it typed twice, although every
      hand-over was recorded before the next began. */
  lemma {:induction false} LostWelcomeRepeatsInput() returns (moves: seq<Move>)
    ensures After(LAUNCH, moves).given == [Given(0, ONE), Given(1, ONE)] && After(LAUNCH, moves).state.written == [[1]]
    ensures NeverOverlaps(LAUNCH, moves)
  {
    hide After;
    hide NeverOverlaps;
    WelcomeIsLost();
    SecondLeaseTakesIt();
    RunConcat(LAUNCH, LOSES_WELCOME, RETURNS);
    moves := LOSES_WELCOME + RETURNS;
  }
}
