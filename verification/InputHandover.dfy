/**
 * Handing an input to the process takes time and may fail, and the lease advances only afterwards (`receiveInput`
 * of RemoteTerminalProtocolServer.ts awaits `onInput`). Exactly when that, or a second lease, delivers an input
 * twice.
 */
module InputHandover {
  import opened Basics
  import opened InputLease

  /** An input the process is being given by the attachment `link`; a failed one will never be recorded. */
  datatype Handing = Handing(link: nat, lease: nat, input: Input, failed: bool)

  /** `state` is what the leases have recorded, `given` every input handed to the process, in order. */
  datatype Handover = Handover(state: System, handing: seq<Handing>, given: seq<Given>)

  /** Anything but taking an input happens as before; taking one and recording it are separate. */
  datatype Move =
    | Does(action: Action)
    | Takes(link: nat)
    | Recorded(index: nat, replyLost: bool)
    | Fails(index: nat)

  /** An attachment handles its packets one after the other. */
  predicate Busy(h: Handover, i: nat) { exists k :: 0 <= k < |h.handing| && h.handing[k].link == i }

  predicate MayTake(h: Handover, i: nat) {
    i < |h.state.links| && h.state.links[i].lease.Some? && !h.state.links[i].failed && Inputs(h.state, i) != []
    && !Busy(h, i)
  }

  /** The input is handed to the process rather than ignored or refused. */
  predicate HandsOver(h: Handover, i: nat)
    requires MayTake(h, i)
  {
    var l := LeaseAt(h.state, h.state.links[i].lease.value);
    !l.evicted && Judge(l.sequence, Inputs(h.state, i)[0].sequence) == Delivered
  }

  function Apply(h: Handover, m: Move): Handover {
    match m
    case Does(a) => if a.ServerInput? then h else h.(state := Step(h.state, a))
    case Takes(i) =>
      if !MayTake(h, i) then h
      else if !HandsOver(h, i) then h.(state := Receive(h.state, i, false))
      else
        var n, input := h.state.links[i].lease.value, Inputs(h.state, i)[0];
        Handover(Taken(h.state, i), h.handing + [Handing(i, n, input, false)], h.given + [Given(n, input)])
    case Recorded(k, lost) =>
      if k >= |h.handing| || h.handing[k].link >= |h.state.links| || h.handing[k].failed then h
      else
        var e := h.handing[k];
        h.(state := Replied(Advanced(h.state, e.lease, e.input), e.link, InputAck(e.input.sequence), lost),
           handing := h.handing[..k] + h.handing[k + 1..])
    case Fails(k) =>
      if k >= |h.handing| || h.handing[k].link >= |h.state.links| || h.handing[k].failed then h
      else h.(state := Refused(h.state, h.handing[k].link), handing := h.handing[k := h.handing[k].(failed := true)])
  }

  /** The process was given the first inputs, each once and in order. */
  predicate InOrder(given: seq<Given>) { forall k :: 0 <= k < |given| ==> given[k].input.sequence == k + 1 }

  predicate AlwaysInOrder(h: Handover, moves: seq<Move>)
    decreases |moves|
  {
    InOrder(h.given) && (moves != [] ==> AlwaysInOrder(Apply(h, moves[0]), moves[1..]))
  }

  predicate Hands(h: Handover, m: Move) { m.Takes? && MayTake(h, m.link) && HandsOver(h, m.link) }

  /** An input is handed over while an earlier hand-over has not been recorded. */
  predicate Overlaps(h: Handover, m: Move) { Hands(h, m) && h.handing != [] }

  predicate NeverOverlaps(h: Handover, moves: seq<Move>)
    decreases |moves|
  {
    moves != [] ==> !Overlaps(h, moves[0]) && NeverOverlaps(Apply(h, moves[0]), moves[1..])
  }

  predicate AllUnder(given: seq<Given>, n: nat) { forall k :: 0 <= k < |given| ==> given[k].lease == n }

  /** An input is handed over under one lease after others were under another. */
  predicate Strays(h: Handover, m: Move) { Hands(h, m) && !AllUnder(h.given, h.state.links[m.link].lease.value) }

  predicate NeverStrays(h: Handover, moves: seq<Move>)
    decreases |moves|
  {
    moves != [] ==> !Strays(h, moves[0]) && NeverStrays(Apply(h, moves[0]), moves[1..])
  }

  // ----- What every move keeps -----

  /** The state once the input in hand is recorded. */
  function Ended(h: Handover): System {
    if h.handing == [] then h.state else Advanced(h.state, h.handing[0].lease, h.handing[0].input)
  }

  predicate OneLease(given: seq<Given>) { given != [] ==> AllUnder(given, given[0].lease) }

  predicate InHand(s: System, e: Handing) {
    && e.link < |s.links| && s.links[e.link].lease == Some(e.lease)
    && e.lease < |s.leases| && e.input.sequence == s.leases[e.lease].sequence + 1
  }

  predicate Sound(h: Handover) {
    && Kept(Ended(h)) && h.given == Ended(h).delivered && OneLease(h.given)
    && |h.handing| <= 1 && (h.handing != [] ==> InHand(h.state, h.handing[0]))
  }

  lemma {:induction false} UnderOne(given: seq<Given>, n: nat)
    requires AllUnder(given, n)
    ensures |Under(given, n)| == |given| && forall k :: 0 <= k < |given| ==> Under(given, n)[k] == given[k].input
  {
    if given != [] { UnderOne(given[1..], n); }
  }

  /** What was given under the lease is all that was ever given. */
  lemma {:induction false} SoundInOrder(h: Handover)
    requires Sound(h)
    ensures InOrder(h.given) && |h.given| <= |h.state.written|
    ensures forall k :: 0 <= k < |h.given| ==> h.given[k].input == Input(k + 1, h.state.written[k])
    ensures h.given != [] ==> h.given[0].lease < |h.state.leases|
                              && Ended(h).leases[h.given[0].lease].sequence == |h.given|
    ensures forall n :: 0 <= n < |h.state.leases| && !AllUnder(h.given, n) ==> Ended(h).leases[n].sequence == 0
  {
    hide WriterKept;
    hide LinksKept;
    var s := Ended(h);
    if h.given != [] {
      var n := h.given[0].lease;
      UnderOne(h.given, n);
      assert Under(s.delivered, n) == Numbered(s.written, s.leases[n].sequence);
      forall m | 0 <= m < |h.state.leases| && !AllUnder(h.given, m) ensures s.leases[m].sequence == 0 {
        UnderNone(h.given, m);
        assert Under(s.delivered, m) == Numbered(s.written, s.leases[m].sequence);
      }
    }
  }

  /** Recording an input does not meddle with who holds the lease. */
  lemma {:induction false} AdvancedCommutes(s: System, n: nat, input: Input, i: nat)
    requires n < |s.leases| && i < |s.links|
    ensures Advanced(Released(s, i), n, input) == Released(Advanced(s, n, input), i)
    ensures Advanced(Refused(s, i), n, input) == Refused(Advanced(s, n, input), i)
    ensures forall reply, lost ::
              Advanced(Replied(s, i, reply, lost), n, input) == Replied(Advanced(s, n, input), i, reply, lost)
    ensures forall m :: Advanced(Claimed(s, i, m), n, input) == Claimed(Advanced(s, n, input), i, m)
    ensures Advanced(Minted(s), n, input) == Minted(Advanced(s, n, input))
  {
  }

  /** No lease has recorded anything and no attachment has lost its lease. */
  predicate SameLeases(s: System, t: System) {
    && t.delivered == s.delivered && |t.leases| >= |s.leases| && |t.links| >= |s.links|
    && (forall n :: 0 <= n < |s.leases| ==> t.leases[n].sequence == s.leases[n].sequence)
    && (forall k :: 0 <= k < |s.links| && s.links[k].lease.Some? ==> t.links[k].lease == s.links[k].lease)
  }

  lemma {:induction false} SameSound(h: Handover, t: System)
    requires Sound(h) && SameLeases(h.state, t) && Kept(Ended(h.(state := t)))
    ensures Sound(h.(state := t))
  {
    hide Kept;
  }

  lemma {:induction false} HelloSame(s: System, i: nat)
    requires i < |s.links| && s.links[i].lease.None?
    ensures SameLeases(s, Hello(s, i))
  {
  }

  /** The client is offered what is recorded, which may not count the input in hand. */
  lemma {:induction false} OfferKeeps(s: System, n: nat, input: Input, i: nat, m: nat, offered: nat)
    requires n < |s.leases| && i < |s.links| && m < |s.leases| && Kept(Advanced(s, n, input))
    requires s.links[i].lease.None? && (s.links[i].requested.Some? ==> s.links[i].requested == Some(m))
    requires offered <= Advanced(s, n, input).leases[m].sequence
    ensures Kept(Advanced(Replied(Claimed(s, i, m), i, Welcomed(m, offered), false), n, input))
  {
    hide LeasesKept;
    hide WriterKept;
    var e := Advanced(s, n, input);
    AdvancedCommutes(s, n, input, i);
    ClaimedKeeps(e, i, m);
    AdvancedCommutes(Claimed(s, i, m), n, input, i);
    RepliedKeeps(Claimed(e, i, m), i, Welcomed(m, offered), false);
  }

  lemma {:induction false} HelloEnded(s: System, n: nat, input: Input, i: nat)
    requires n < |s.leases| && i < |s.links| && s.links[i].lease.None? && Kept(Advanced(s, n, input))
    requires input.sequence == s.leases[n].sequence + 1
    ensures Kept(Advanced(Hello(s, i), n, input))
  {
    hide LeasesKept;
    hide WriterKept;
    var e := Advanced(s, n, input);
    assert LinkKept(e, e.links[i]);
    AdvancedCommutes(s, n, input, i);
    match s.links[i].requested
    case None =>
      MintedKeeps(e);
      OfferKeeps(Minted(s), n, input, i, |s.leases|, 0);
    case Some(m) =>
      if Unavailable(s, i, m) { RefusedKeeps(e, i); } else { OfferKeeps(s, n, input, i, m, s.leases[m].sequence); }
  }

  lemma {:induction false} HelloSound(h: Handover, i: nat)
    requires Sound(h) && i < |h.state.links| && h.state.links[i].lease.None?
    ensures Sound(h.(state := Hello(h.state, i)))
  {
    hide Kept;
    hide Hello;
    HelloSame(h.state, i);
    if h.handing == [] {
      HelloKeeps(h.state, i);
    } else {
      HelloEnded(h.state, h.handing[0].lease, h.handing[0].input, i);
    }
    SameSound(h, Hello(h.state, i));
  }

  /** Everything else does not consult the lease. */
  lemma {:induction false} OtherStep(s: System, n: nat, input: Input, a: Action)
    requires !a.ServerInput? && !a.ServerHello? && n < |s.leases| && s.links != []
    ensures Advanced(Step(s, a), n, input) == Step(Advanced(s, n, input), a)
  {
    if a.ServerClose? && a.link < |s.links| { AdvancedCommutes(s, n, input, a.link); }
  }

  lemma {:induction false} OtherSame(s: System, a: Action)
    requires !a.ServerInput? && !a.ServerHello?
    ensures SameLeases(s, Step(s, a))
  {
  }

  lemma {:induction false} SoundLinks(h: Handover)
    requires Sound(h)
    ensures h.state.links != []
  {
  }

  lemma {:induction false} DoesSound(h: Handover, a: Action)
    requires Sound(h) && !a.ServerInput?
    ensures Sound(Apply(h, Does(a)))
  {
    hide Kept;
    hide Hello;
    if a.ServerHello? {
      var i, s := a.link, h.state;
      if i < |s.links| && s.links[i].lease.None? { HelloSound(h, i); }
    } else {
      SoundLinks(h);
      OtherSame(h.state, a);
      if h.handing != [] { OtherStep(h.state, h.handing[0].lease, h.handing[0].input, a); }
      StepKeeps(Ended(h), a);
      hide Step;
      SameSound(h, Step(h.state, a));
    }
  }

  /** The attachment takes an input that is ignored or refused. */
  lemma {:induction false} IgnoredKeeps(s: System, i: nat)
    requires Kept(s) && i < |s.links| && s.links[i].lease.Some? && Inputs(s, i) != []
    requires Inputs(s, i)[0].sequence <= LeaseAt(s, s.links[i].lease.value).sequence
    ensures Kept(Replied(Taken(s, i), i, InputAck(Inputs(s, i)[0].sequence), false))
  {
    hide LeasesKept;
    hide WriterKept;
    assert LinkKept(s, s.links[i]);
    TakenKeeps(s, i);
    RepliedKeeps(Taken(s, i), i, InputAck(Inputs(s, i)[0].sequence), false);
  }

  lemma {:induction false} TakenCommutes(s: System, n: nat, input: Input, i: nat)
    requires n < |s.leases| && i < |s.links| && Inputs(s, i) != []
    ensures Advanced(Taken(s, i), n, input) == Taken(Advanced(s, n, input), i)
    ensures SameLeases(s, Taken(s, i))
  {
  }

  lemma {:induction false} TakenSizes(s: System, i: nat)
    requires i < |s.links| && Inputs(s, i) != []
    ensures |Taken(s, i).links| == |s.links| && Taken(s, i).leases == s.leases
  {
  }

  lemma {:induction false} ReplySame(s: System, i: nat, reply: Reply)
    requires i < |s.links|
    ensures SameLeases(s, Replied(s, i, reply, false)) && SameLeases(s, Refused(s, i))
  {
  }

  lemma {:induction false} IgnoredSound(h: Handover, i: nat)
    requires Sound(h) && MayTake(h, i) && !HandsOver(h, i)
    ensures Sound(Apply(h, Takes(i)))
  {
    hide Kept;
    hide Advanced;
    hide Taken;
    hide Replied;
    hide Refused;
    hide SameLeases;
    var e, input := Ended(h), Inputs(h.state, i)[0];
    var reply, s := InputAck(input.sequence), Taken(h.state, i);
    EndedSame(h, i);
    TakenSizes(h.state, i);
    TakenSizes(e, i);
    if h.handing != [] {
      TakenCommutes(h.state, h.handing[0].lease, h.handing[0].input, i);
      AdvancedCommutes(s, h.handing[0].lease, h.handing[0].input, i);
    }
    TakenKeeps(e, i);
    var t := Receive(h.state, i, false);
    if t == Refused(s, i) {
      RefusedKeeps(Taken(e, i), i);
    } else {
      IgnoredKeeps(e, i);
    }
    ReceiveSame(h.state, i);
    SameSound(h, t);
  }

  lemma {:induction false} EndedSame(h: Handover, i: nat)
    requires Sound(h) && MayTake(h, i)
    ensures var e := Ended(h);
            && i < |e.links| && e.links[i].lease == h.state.links[i].lease && Inputs(e, i) == Inputs(h.state, i)
            && forall n :: LeaseAt(h.state, n).sequence <= LeaseAt(e, n).sequence
  {
  }

  lemma {:induction false} ReceiveSame(s: System, i: nat)
    requires i < |s.links| && s.links[i].lease.Some? && Inputs(s, i) != []
    requires var l := LeaseAt(s, s.links[i].lease.value);
             l.evicted || Judge(l.sequence, Inputs(s, i)[0].sequence) != Delivered
    ensures SameLeases(s, Receive(s, i, false))
  {
    var t := Taken(s, i);
    ReplySame(t, i, InputAck(Inputs(s, i)[0].sequence));
  }

  lemma {:induction false} TakesSound(h: Handover, i: nat)
    requires Sound(h) && MayTake(h, i) && HandsOver(h, i) && h.handing == []
    requires AllUnder(h.given, h.state.links[i].lease.value)
    ensures Sound(Apply(h, Takes(i)))
  {
    hide LeasesKept;
    hide WriterKept;
    var n, input := h.state.links[i].lease.value, Inputs(h.state, i)[0];
    assert LinkKept(h.state, h.state.links[i]);
    TakenKeeps(h.state, i);
    AdvancedKeeps(Taken(h.state, i), n, input);
    hide LinkKept;
  }

  lemma {:induction false} RecordedSound(h: Handover, k: nat, lost: bool)
    requires Sound(h)
    ensures Sound(Apply(h, Recorded(k, lost)))
  {
    hide LeasesKept;
    hide WriterKept;
    if k < |h.handing| && !h.handing[k].failed {
      var e := h.handing[0];
      RepliedKeeps(Ended(h), e.link, InputAck(e.input.sequence), lost);
      assert Apply(h, Recorded(k, lost)).handing == [];
    }
  }

  lemma {:induction false} FailsSound(h: Handover, k: nat)
    requires Sound(h)
    ensures Sound(Apply(h, Fails(k)))
  {
    hide LeasesKept;
    hide WriterKept;
    if k < |h.handing| && !h.handing[k].failed {
      var e := h.handing[0];
      RefusedKeeps(Ended(h), e.link);
      AdvancedCommutes(h.state, e.lease, e.input, e.link);
    }
  }

  lemma {:induction false} MoveSound(h: Handover, m: Move)
    requires Sound(h) && !Overlaps(h, m) && !Strays(h, m)
    ensures Sound(Apply(h, m))
  {
    hide Sound;
    hide Step;
    hide Receive;
    match m
    case Does(a) => if !a.ServerInput? { DoesSound(h, a); }
    case Takes(i) =>
      if MayTake(h, i) {
        if HandsOver(h, i) { TakesSound(h, i); } else { IgnoredSound(h, i); }
      }
    case Recorded(k, lost) => RecordedSound(h, k, lost);
    case Fails(k) => FailsSound(h, k);
  }

  lemma {:induction false} RepeatIsSeen(h: Handover, m: Move)
    requires Sound(h) && (Overlaps(h, m) || Strays(h, m))
    ensures !InOrder(Apply(h, m).given) && Apply(h, m).given[|h.given|].input.sequence <= |h.given|
  {
    hide LeasesKept;
    hide WriterKept;
    var n, input := h.state.links[m.link].lease.value, Inputs(h.state, m.link)[0];
    SoundInOrder(h);
    assert LinkKept(Ended(h), Ended(h).links[m.link]);
    assert Apply(h, m).given[|h.given|] == Given(n, input);
    if AllUnder(h.given, n) { assert h.given[|h.given| - 1] == Given(n, h.handing[0].input); }
  }

  /** Over any run, the process is given every input once and in order exactly when no input is handed over
      while an earlier hand-over has not been recorded, and none under one lease after others under another. */
  lemma {:induction false} AlwaysInOrderIff(h: Handover, moves: seq<Move>)
    requires Sound(h)
    ensures AlwaysInOrder(h, moves) <==> NeverOverlaps(h, moves) && NeverStrays(h, moves)
    decreases |moves|
  {
    hide Apply;
    hide Overlaps;
    hide Strays;
    hide Sound;
    SoundInOrder(h);
    if moves != [] {
      if Overlaps(h, moves[0]) || Strays(h, moves[0]) {
        RepeatIsSeen(h, moves[0]);
        NotAlways(Apply(h, moves[0]), moves[1..]);
      } else {
        MoveSound(h, moves[0]);
        AlwaysInOrderIff(Apply(h, moves[0]), moves[1..]);
      }
    }
  }

  lemma {:induction false} NotAlways(h: Handover, moves: seq<Move>)
    requires !InOrder(h.given)
    ensures !AlwaysInOrder(h, moves)
  {
  }

  function After(h: Handover, moves: seq<Move>): Handover
    decreases |moves|
  {
    if moves == [] then h else After(Apply(h, moves[0]), moves[1..])
  }

  const LAUNCH := Handover(START, [], [])

  lemma {:induction false} LaunchSound()
    ensures Sound(LAUNCH)
  {
    StartKept();
  }

  lemma {:induction false} RunSound(h: Handover, moves: seq<Move>)
    requires Sound(h) && NeverOverlaps(h, moves) && NeverStrays(h, moves)
    ensures Sound(After(h, moves))
    decreases |moves|
  {
    hide Apply;
    hide Overlaps;
    hide Strays;
    hide Sound;
    if moves != [] {
      MoveSound(h, moves[0]);
      RunSound(Apply(h, moves[0]), moves[1..]);
    }
  }

  /** In such a run the process has been given exactly the first inputs written, with their data, and the client
      still holds all the others. */
  lemma {:induction false} GivenIsWritten(moves: seq<Move>)
    requires NeverOverlaps(LAUNCH, moves) && NeverStrays(LAUNCH, moves)
    ensures var h := After(LAUNCH, moves);
            && |h.given| <= |h.state.written|
            && (forall k :: 0 <= k < |h.given| ==> h.given[k].input == Input(k + 1, h.state.written[k]))
            && (forall n :: |h.given| < n <= |h.state.written| ==> Held(h.state, n))
  {
    LaunchSound();
    RunSound(LAUNCH, moves);
    hide After;
    var h := After(LAUNCH, moves);
    SoundInOrder(h);
    forall n | |h.given| < n <= |h.state.written| ensures Held(h.state, n) {
      hide LeasesKept;
      hide LinksKept;
      RestIsHeld(Ended(h), n);
    }
  }
}
