/**
 * A client that writes nothing until a welcome has named its lease. It never uses two leases, so only a
 * hand-over that is still unrecorded can repeat one of its inputs.
 */
module InputKnownLease {
  import opened Basics
  import opened InputLease
  import opened InputHandover

  predicate Waits(h: Handover, m: Move) { m.Does? && m.action.Write? ==> h.state.writer.lease.Some? }

  predicate AlwaysWaits(h: Handover, moves: seq<Move>)
    decreases |moves|
  {
    moves != [] ==> Waits(h, moves[0]) && AlwaysWaits(Apply(h, moves[0]), moves[1..])
  }

  predicate Apart(link: Link, n: nat) { link.lease != Some(n) && link.requested != Some(n) }

  /** Inputs are written and given under the lease the client knows. */
  predicate OnLease(s: System, n: nat) {
    forall i :: 0 <= i < |s.links| && Apart(s.links[i], n) ==> Inputs(s, i) == []
  }

  predicate Known(h: Handover) {
    match h.state.writer.lease
    case None => h.state.written == []
    case Some(n) => AllUnder(h.given, n) && OnLease(h.state, n)
  }

  lemma {:induction false} GenuineOfSome(inputs: seq<Input>, written: seq<seq<Byte>>)
    requires AllGenuine(inputs, written) && inputs != []
    ensures written != []
  {
    assert Genuine(inputs[0], written);
  }

  /** Before the first write there is nothing on any channel. */
  lemma {:induction false} NothingWritten(h: Handover)
    requires Sound(h) && h.state.written == []
    ensures h.given == [] && h.state.writer.pending == [] && h.state.writer.up == []
    ensures forall i :: 0 <= i < |h.state.links| ==> Inputs(h.state, i) == []
  {
    hide LeasesKept;
    SoundInOrder(h);
    var s, e := h.state, Ended(h);
    assert s.writer == e.writer && s.links == e.links && s.written == e.written;
    forall i | 0 <= i < |s.links| ensures Inputs(s, i) == [] {
      assert LinkKept(e, e.links[i]);
      if Inputs(s, i) != [] { GenuineOfSome(Inputs(s, i), s.written); }
    }
    if s.writer.up != [] { GenuineOfSome(s.writer.up, s.written); }
  }

  /** The attachment in use is on the lease the client knows, and its welcome names that one. */
  lemma {:induction false} LastIsOn(s: System, n: nat)
    requires LinksKept(s) && s.writer.lease == Some(n)
    ensures !Apart(s.links[|s.links| - 1], n)
    ensures Hears(s) && s.links[|s.links| - 1].down[0].Welcomed? ==> s.links[|s.links| - 1].down[0].lease == n
  {
    var link := s.links[|s.links| - 1];
    assert LinkKept(s, link);
    if link.down != [] { assert ReplyKnown(s, link, link.down[0]); }
  }

  lemma {:induction false} FirstHeard(h: Handover, cut: bool)
    requires Sound(h) && h.state.written == [] && Hears(h.state)
    ensures forall i :: 0 <= i < |h.state.links| ==> Inputs(Heard(h.state, cut), i) == []
    ensures h.given == []
  {
    NothingWritten(h);
    hide Sound;
    var s := h.state;
    assert Heard(s, cut).writer.up == [];
    forall i | 0 <= i < |s.links| ensures Inputs(Heard(s, cut), i) == [] {
      assert Inputs(s, i) == [];
    }
  }

  lemma {:induction false} HeardKnown(h: Handover, cut: bool)
    requires Sound(h) && Known(h) && Hears(h.state)
    ensures Known(h.(state := Heard(h.state, cut)))
  {
    hide LeasesKept;
    hide WriterKept;
    hide Above;
    var s := h.state;
    var t := Heard(s, cut);
    assert t.written == s.written && |t.links| == |s.links|;
    match s.writer.lease {
      case None => FirstHeard(h, cut);
      case Some(n) =>
        assert Ended(h).links == s.links && Ended(h).writer == s.writer;
        LastIsOn(Ended(h), n);
        hide Sound;
        forall i | 0 <= i < |t.links| && Apart(t.links[i], n) ensures Inputs(t, i) == [] {
          assert Apart(s.links[i], n) && Inputs(s, i) == [];
        }
    }
  }

  /** The steps that touch a link but no channel to the server. */
  lemma {:induction false} ServerStepKnown(s: System, a: Action, n: nat)
    requires a.ServerHello? || a.ServerClose? || a.Evict? || a.ClientClose?
    requires OnLease(s, n) && n < |s.leases|
    ensures OnLease(Step(s, a), n)
  {
    var t := Step(s, a);
    assert |t.links| == |s.links| && t.writer.up == s.writer.up;
    forall i | 0 <= i < |t.links| && Apart(t.links[i], n) ensures Inputs(t, i) == [] {
      assert Apart(s.links[i], n) && Inputs(s, i) == [];
    }
  }

  lemma {:induction false} ClientStepKnown(s: System, a: Action, n: nat)
    requires a.Write? || a.Reconnect?
    requires s.links != [] && OnLease(s, n) && !Apart(s.links[|s.links| - 1], n) && s.writer.lease == Some(n)
    ensures OnLease(Step(s, a), n) && Step(s, a).writer.lease == Some(n)
  {
    var t := Step(s, a);
    forall i | 0 <= i < |t.links| && Apart(t.links[i], n) ensures Inputs(t, i) == [] {
      if i < |s.links| { assert Apart(s.links[i], n) && Inputs(s, i) == []; }
    }
  }

  lemma {:induction false} DoesKnown(h: Handover, a: Action)
    requires Sound(h) && Known(h) && Waits(h, Does(a)) && !a.ServerInput?
    ensures Known(Apply(h, Does(a)))
  {
    hide LeasesKept;
    hide LinkKept;
    hide Heard;
    hide OnLease;
    var s := h.state;
    if a.ClientReceive? || a.ClientCut? {
      if Hears(s) { HeardKnown(h, a.ClientCut?); }
    } else if s.writer.lease.Some? {
      var n := s.writer.lease.value;
      assert LinksKept(Ended(h)) && Ended(h).links == s.links && Ended(h).writer == s.writer;
      LastIsOn(Ended(h), n);
      if a.Write? || a.Reconnect? { ClientStepKnown(s, a, n); } else { ServerStepKnown(s, a, n); }
    }
  }

  lemma {:induction false} HandsKnown(h: Handover, i: nat)
    requires Sound(h) && Known(h) && MayTake(h, i)
    ensures h.state.writer.lease.Some? && h.state.links[i].lease == h.state.writer.lease
  {
    hide LeasesKept;
    hide WriterKept;
    if h.state.writer.lease.None? {
      NothingWritten(h);
    } else {
      assert Ended(h).links == h.state.links;
      assert LinkKept(Ended(h), h.state.links[i]);
    }
  }

  /** Taking an input leaves the rest of the channels and the leases of the attachments alone. */
  lemma {:induction false} TakesKnown(h: Handover, i: nat)
    requires Sound(h) && Known(h) && MayTake(h, i)
    ensures Known(Apply(h, Takes(i)))
  {
    hide Sound;
    HandsKnown(h, i);
    var s, t, n := h.state, Apply(h, Takes(i)).state, h.state.writer.lease.value;
    assert |t.links| == |s.links| && t.writer.lease == s.writer.lease;
    forall k | 0 <= k < |t.links| && Apart(t.links[k], n) ensures Inputs(t, k) == [] {
      assert Apart(s.links[k], n) && Inputs(s, k) == [];
    }
  }

  lemma {:induction false} EndsKnown(h: Handover, m: Move)
    requires Sound(h) && Known(h) && (m.Recorded? || m.Fails?)
    ensures Known(Apply(h, m))
  {
    hide Sound;
    var s, t := h.state, Apply(h, m).state;
    assert |t.links| == |s.links| && t.writer == s.writer && t.written == s.written;
    if s.writer.lease.Some? {
      forall k | 0 <= k < |t.links| && Apart(t.links[k], s.writer.lease.value) ensures Inputs(t, k) == [] {
        assert Apart(s.links[k], s.writer.lease.value) && Inputs(s, k) == [];
      }
    }
  }

  lemma {:induction false} MoveKnown(h: Handover, m: Move)
    requires Sound(h) && Known(h) && Waits(h, m)
    ensures Known(Apply(h, m)) && !Strays(h, m)
  {
    hide Sound;
    match m
    case Does(a) => if !a.ServerInput? { DoesKnown(h, a); }
    case Takes(i) => if MayTake(h, i) { HandsKnown(h, i); TakesKnown(h, i); }
    case _ => EndsKnown(h, m);
  }

  lemma {:induction false} WaitingNeverStrays(h: Handover, moves: seq<Move>)
    requires Sound(h) && Known(h) && AlwaysWaits(h, moves) && NeverOverlaps(h, moves)
    ensures NeverStrays(h, moves)
    decreases |moves|
  {
    hide Sound;
    hide Known;
    hide Apply;
    if moves != [] {
      MoveKnown(h, moves[0]);
      MoveSound(h, moves[0]);
      WaitingNeverStrays(Apply(h, moves[0]), moves[1..]);
    }
  }

  /** A client that waits for its first welcome has every input delivered once and in order exactly when no
      hand-over overlaps another. */
  lemma {:induction false} WaitingIsInOrderIff(moves: seq<Move>)
    requires AlwaysWaits(LAUNCH, moves)
    ensures AlwaysInOrder(LAUNCH, moves) <==> NeverOverlaps(LAUNCH, moves)
  {
    LaunchSound();
    AlwaysInOrderIff(LAUNCH, moves);
    if NeverOverlaps(LAUNCH, moves) { WaitingNeverStrays(LAUNCH, moves); }
  }
}
