/**
 * Credit flow control of a client that accepts only VT output: what is sent is bounded by its credit,
 * what is not yet sent is queued without a gap, and the process is paused exactly while a queue exists.
 */
module TerminalCredit {
  import opened Basics
  import opened Grids
  import opened TerminalState
  import opened TerminalSystem
  import opened TerminalReplay

  /** The offset up to which output has been handed to the stream, out of `offset` committed. */
  function Issued(c: Conn, offset: nat): nat {
    if c.pendingVt == [] then offset else c.pendingVt[0].start
  }

  /** Accounting of one VT-only connection that has been told of all output in `shown`. */
  predicate CreditOk(c: Conn, shown: seq<Byte>, config: Config, resume: nat) {
    var issued := Issued(c, |shown|);
    && c.open && c.initialized && c.mode == Vt && !c.gridCapable
    && Tiles(c.pendingVt, shown, issued, config.wireChunk)
    && issued == Max(resume, c.maxSent) && (c.maxSent == 0 || resume < c.maxSent)
    && resume <= c.acked <= issued <= c.acked + c.credit
    && config.wireChunk <= c.credit
    && (c.pendingVt != [] ==> c.pendingVt[0].End() > c.acked + c.credit)
    && (c.needsGrid.Some? <==> c.pendingVt != [])
    && (c.paused <==> c.mayWrite && c.pendingVt != [])
    && c.pendingBytes == |shown| - issued <= config.maxBuffered
    && c.pendingGrid.None? && c.gridInFlight.None?
  }

  /** Output packets in `ms` start at `from`, follow each other without gap or overlap, and end at `to`. */
  predicate Contiguous(ms: seq<Down>, from: nat, to: nat)
    decreases |ms|
  {
    if ms == [] then from == to
    else if ms[0].Output? then
      1 <= |ms[0].data| && ms[0].end == from + |ms[0].data| && Contiguous(ms[1..], ms[0].end, to)
    else Contiguous(ms[1..], from, to)
  }

  predicate AnyOutput(ms: seq<Down>) { exists i :: 0 <= i < |ms| && ms[i].Output? }

  predicate OutputWithin(m: Down, to: nat) { m.Output? ==> 1 <= |m.data| <= m.end <= to }

  predicate Apart(m: Down, n: Down)
    requires m.Output? ==> |m.data| <= m.end
    requires n.Output? ==> |n.data| <= n.end
  {
    m.Output? && n.Output? ==> m.end <= n.end - |n.data| || n.end <= m.end - |m.data|
  }

  /** No packet that takes the client out of VT mode. */
  predicate KeepsVt(m: Down) { !m.ModeSwitch? && !m.Keyframe? && (m.Welcome? ==> m.mode == Vt) }

  /** How the packets written and lost relate to a client that has applied output up to `applied`. */
  predicate PacketsOk(wire: seq<Down>, lost: seq<Down>, issued: nat, applied: nat) {
    && applied <= issued
    && (forall i :: 0 <= i < |wire| ==> KeepsVt(wire[i]))
    && (forall i :: 0 <= i < |wire| ==> OutputWithin(wire[i], issued))
    && (forall i :: 0 <= i < |lost| ==> OutputWithin(lost[i], issued))
    && (forall i :: 0 <= i < |lost| && lost[i].Output? ==> applied <= lost[i].end - |lost[i].data|)
    && (forall i, j :: 0 <= i < |wire| && 0 <= j < |lost| ==> Apart(wire[i], lost[j]))
    && (!AnyOutput(lost) ==> Contiguous(wire, applied, issued))
  }

  lemma {:induction false} ContiguousAppend(ms: seq<Down>, from: nat, to: nat, m: Down)
    requires Contiguous(ms, from, to)
    requires m.Output? ==> 1 <= |m.data| && m.end == to + |m.data|
    ensures Contiguous(ms + [m], from, if m.Output? then m.end else to)
    decreases |ms|
  {
    if ms == [] {
      assert [m][1..] == [];
      assert ms + [m] == [m];
      assert m.Output? ==> Contiguous([], m.end, m.end);
    } else {
      assert (ms + [m])[1..] == ms[1..] + [m];
      ContiguousAppend(ms[1..], if ms[0].Output? then ms[0].end else from, to, m);
    }
  }

  lemma {:induction false} PacketWritten(wire: seq<Down>, lost: seq<Down>, m: Down, issued: nat, applied: nat)
    requires PacketsOk(wire, lost, issued, applied)
    requires KeepsVt(m) && (m.Output? ==> 1 <= |m.data| && m.end == issued + |m.data|)
    ensures PacketsOk(wire + [m], lost, if m.Output? then m.end else issued, applied)
  {
    if !AnyOutput(lost) {
      ContiguousAppend(wire, applied, issued, m);
    }
  }

  lemma {:induction false} PacketLost(wire: seq<Down>, lost: seq<Down>, m: Down, issued: nat, applied: nat)
    requires PacketsOk(wire, lost, issued, applied)
    requires KeepsVt(m) && (m.Output? ==> 1 <= |m.data| && m.end == issued + |m.data|)
    ensures PacketsOk(wire, lost + [m], if m.Output? then m.end else issued, applied)
  {
    var more := lost + [m];
    forall i | 0 <= i < |lost| ensures more[i] == lost[i] {
    }
    assert more[|lost|] == m;
    if AnyOutput(lost) {
      var i :| 0 <= i < |lost| && lost[i].Output?;
      assert more[i].Output?;
    }
  }

  lemma {:induction false} SendPackets(c: Conn, m: Down, issued: nat, applied: nat)
    requires c.open && PacketsOk(c.wire, c.lost, issued, applied)
    requires KeepsVt(m) && (m.Output? ==> 1 <= |m.data| && m.end == issued + |m.data|)
    ensures PacketsOk(c.Send(m).wire, c.Send(m).lost, if m.Output? then m.end else issued, applied)
    ensures c.Send(m) == c.(wire := c.Send(m).wire, lost := c.Send(m).lost, blocked := c.Send(m).blocked,
                            room := c.Send(m).room)
  {
    hide PacketsOk;
    if c.blocked {
      PacketLost(c.wire, c.lost, m, issued, applied);
    } else {
      PacketWritten(c.wire, c.lost, m, issued, applied);
    }
  }

  /** Both halves of the accounting together. */
  predicate FlowOk(c: Conn, shown: seq<Byte>, config: Config, resume: nat, applied: nat) {
    CreditOk(c, shown, config, resume) && PacketsOk(c.wire, c.lost, Issued(c, |shown|), applied)
  }

  lemma {:induction false} OtherSent(c: Conn, m: Down, shown: seq<Byte>, config: Config, resume: nat,
                                     applied: nat)
    requires FlowOk(c, shown, config, resume, applied) && !m.Output? && KeepsVt(m)
    ensures FlowOk(c.Send(m), shown, config, resume, applied)
    ensures forall exit :: ExitKnown(c.Send(m), exit) == ExitKnown(c, exit)
  {
    SendPackets(c, m, Issued(c, |shown|), applied);
  }

  lemma {:induction false} QueueFlow(c: Conn, chunk: Chunk, shown: seq<Byte>, config: Config, resume: nat,
                                     applied: nat)
    requires FlowOk(c, shown, config, resume, applied)
    requires chunk.start == |shown| && 1 <= |chunk.data| <= config.wireChunk
    requires c.pendingVt != [] || chunk.End() > c.acked + c.credit
    ensures var d := c.(needsGrid := Some(chunk.End())).QueueVt(chunk, config.maxBuffered);
            var e := if c.pendingVt == [] then d.SetFlowPaused(true) else d;
            e.open ==> FlowOk(e, shown + chunk.data, config, resume, applied)
  {
    if c.pendingBytes + |chunk.data| <= config.maxBuffered {
      TilesAppend(c.pendingVt, shown, Issued(c, |shown|), config.wireChunk, chunk);
      var q := c.pendingVt + [chunk];
      var e := c.(needsGrid := Some(chunk.End()), pendingVt := q, pendingBytes := c.pendingBytes + |chunk.data|,
                  paused := c.mayWrite);
      assert q[0] == if c.pendingVt == [] then chunk else c.pendingVt[0];
      assert PacketsOk(e.wire, e.lost, Issued(c, |shown|), applied);
      assert Issued(e, |shown + chunk.data|) == Issued(c, |shown|);
      QueuedForm(c, chunk, config);
    } else {
      Refused(c, chunk, config);
    }
  }

  lemma {:induction false} QueuedForm(c: Conn, chunk: Chunk, config: Config)
    requires c.pendingBytes + |chunk.data| <= config.maxBuffered
    requires c.paused <==> c.mayWrite && c.pendingVt != []
    ensures var d := c.(needsGrid := Some(chunk.End())).QueueVt(chunk, config.maxBuffered);
            var e := if c.pendingVt == [] then d.SetFlowPaused(true) else d;
            e == c.(needsGrid := Some(chunk.End()), pendingVt := c.pendingVt + [chunk],
               pendingBytes := c.pendingBytes + |chunk.data|, paused := c.mayWrite)
  {
  }

  /** A client that lets its queue outgrow the buffer is disconnected. */
  lemma {:induction false} Refused(c: Conn, chunk: Chunk, config: Config)
    requires c.pendingBytes + |chunk.data| > config.maxBuffered
    ensures !c.(needsGrid := Some(chunk.End())).QueueVt(chunk, config.maxBuffered).open
  {
  }

  lemma {:induction false} SendFlow(c: Conn, chunk: Chunk, shown: seq<Byte>, config: Config, resume: nat,
                                    applied: nat)
    requires FlowOk(c, shown, config, resume, applied) && c.pendingVt == []
    requires chunk.start == |shown| && 1 <= |chunk.data| && chunk.End() <= c.acked + c.credit
    ensures FlowOk(c.SendOutput(chunk), shown + chunk.data, config, resume, applied)
  {
    SendPackets(c, Output(chunk.End(), chunk.data), |shown|, applied);
    var d := c.Send(Output(chunk.End(), chunk.data));
    assert PacketsOk(c.SendOutput(chunk).wire, c.SendOutput(chunk).lost, chunk.End(), applied);
  }

  lemma {:induction false} PublishFlow(c: Conn, chunk: Chunk, grid: Option<Grid>, shown: seq<Byte>,
                                       config: Config, resume: nat, applied: nat)
    requires FlowOk(c, shown, config, resume, applied)
    requires chunk.start == |shown| && 1 <= |chunk.data| <= config.wireChunk
    ensures var d := c.PublishOutput(chunk, grid, config.maxBuffered);
            d.open ==> FlowOk(d, shown + chunk.data, config, resume, applied)
  {
    hide Conn.QueueVt;
    hide Conn.Send;
    if c.needsGrid.Some? || chunk.End() - c.acked > c.credit {
      QueueFlow(c, chunk, shown, config, resume, applied);
    } else {
      SendFlow(c, chunk, shown, config, resume, applied);
    }
  }

  lemma {:induction false} PublishAllFlow(c: Conn, chunks: seq<Chunk>, grid: Option<Grid>, shown: seq<Byte>,
                                          all: seq<Byte>, config: Config, resume: nat, applied: nat)
    requires FlowOk(c, shown, config, resume, applied)
    requires shown <= all && Tiles(chunks, all, |shown|, config.wireChunk)
    ensures var d := c.PublishAll(chunks, grid, config.maxBuffered);
            d.open ==> FlowOk(d, all, config, resume, applied)
    decreases |chunks|
  {
    hide Conn.PublishOutput;
    if chunks == [] {
      assert shown == all;
    } else {
      var chunk := chunks[0];
      PublishFlow(c, chunk, grid, shown, config, resume, applied);
      var d := c.PublishOutput(chunk, grid, config.maxBuffered);
      var next := shown + chunk.data;
      assert next == all[..chunk.End()] by {
        assert all[..chunk.End()] == all[..chunk.start] + all[chunk.start..chunk.End()];
      }
      if d.open {
        PublishAllFlow(d, chunks[1..], grid, next, all, config, resume, applied);
      }
    }
  }

  /** The accounting while a queue is being flushed: everything but the credit test and the pause. */
  predicate Flushing(c: Conn, shown: seq<Byte>, config: Config, resume: nat, applied: nat) {
    var issued := Issued(c, |shown|);
    && c.open && c.initialized && c.mode == Vt && !c.gridCapable
    && Tiles(c.pendingVt, shown, issued, config.wireChunk)
    && issued == Max(resume, c.maxSent) && (c.maxSent == 0 || resume < c.maxSent)
    && resume <= c.acked <= issued <= c.acked + c.credit
    && config.wireChunk <= c.credit
    && (c.pendingVt != [] ==> c.needsGrid.Some?)
    && (c.mayWrite && c.pendingVt != [] ==> c.paused)
    && (c.paused ==> c.mayWrite)
    && c.pendingBytes == |shown| - issued <= config.maxBuffered
    && c.pendingGrid.None? && c.gridInFlight.None?
    && PacketsOk(c.wire, c.lost, issued, applied)
  }

  function HeadSent(c: Conn): Conn
    requires c.pendingVt != []
  {
    c.(pendingVt := c.pendingVt[1..], pendingBytes := c.pendingBytes - |c.pendingVt[0].data|)
     .SendOutput(c.pendingVt[0])
  }

  lemma {:induction false} HeadSentFlow(c: Conn, shown: seq<Byte>, config: Config, resume: nat, applied: nat)
    requires Flushing(c, shown, config, resume, applied)
    requires c.pendingVt != [] && c.pendingVt[0].End() <= c.acked + c.credit
    ensures Flushing(HeadSent(c), shown, config, resume, applied)
  {
    hide Conn.Send;
    hide PacketsOk;
    var next := c.pendingVt[0];
    var a := c.(pendingVt := c.pendingVt[1..], pendingBytes := c.pendingBytes - |next.data|);
    assert Tiles(a.pendingVt, shown, next.End(), config.wireChunk);
    SendPackets(a, Output(next.End(), next.data), next.start, applied);
    var b := HeadSent(c);
    assert b == a.Send(Output(next.End(), next.data)).(maxSent := b.maxSent);
    assert b.maxSent == next.End();
    assert Issued(b, |shown|) == next.End();
  }

  lemma {:induction false} SendQueuedFlow(c: Conn, shown: seq<Byte>, config: Config, resume: nat, applied: nat)
    requires Flushing(c, shown, config, resume, applied)
    ensures var d := c.SendQueued();
            && Flushing(d, shown, config, resume, applied)
            && (d.pendingVt != [] ==> d.pendingVt[0].End() > d.acked + d.credit)
    decreases |c.pendingVt|
  {
    if c.pendingVt != [] && c.pendingVt[0].End() - c.acked <= c.credit {
      HeadSentFlow(c, shown, config, resume, applied);
      assert c.SendQueued() == HeadSent(c).SendQueued();
      SendQueuedFlow(HeadSent(c), shown, config, resume, applied);
    }
  }

  /** The exit was handed to the stream exactly when all output was, the last of it by this attachment. */
  predicate ExitKnown(c: Conn, exit: Option<nat>) {
    c.exitSent <==> exit.Some? && c.pendingVt == [] && exit.value <= c.maxSent
  }

  lemma {:induction false} ExitMade(c: Conn, exit: Option<nat>, grid: Option<Grid>, shown: seq<Byte>,
                                    config: Config, resume: nat)
    requires CreditOk(c, shown, config, resume)
    requires c.exitSent ==> exit.Some? && c.pendingVt == [] && exit.value <= c.maxSent
    ensures ExitKnown(c.MaybeSendExit(exit, grid), exit)
  {
  }

  lemma {:induction false} ExitFlow(c: Conn, exit: Option<nat>, grid: Option<Grid>, shown: seq<Byte>,
                                    config: Config, resume: nat, applied: nat)
    requires FlowOk(c, shown, config, resume, applied)
    ensures FlowOk(c.MaybeSendExit(exit, grid), shown, config, resume, applied)
  {
    hide Conn.Send;
    if exit.Some? {
      OtherSent(c, Exit(exit.value), shown, config, resume, applied);
    }
  }

  /** Every acknowledgement of applied output is accepted and sends what the freed credit allows. */
  lemma {:induction false} AckFlow(c: Conn, offset: nat, exit: Option<nat>, grid: Option<Grid>, shown: seq<Byte>,
                                   config: Config, resume: nat, applied: nat)
    requires FlowOk(c, shown, config, resume, applied)
    requires c.acked < offset <= applied
    ensures FlowOk(c.OnOutputAck(offset, exit, grid), shown, config, resume, applied)
    ensures c.OnOutputAck(offset, exit, grid).acked == offset
    ensures ExitKnown(c, exit) ==> ExitKnown(c.OnOutputAck(offset, exit, grid), exit)
  {
    hide Conn.MaybeSendExit;
    hide Conn.SendQueued;
    var a := c.(acked := offset);
    assert PacketsOk(a.wire, a.lost, Issued(c, |shown|), applied);
    assert Flushing(a, shown, config, resume, applied);
    SendQueuedFlow(a, shown, config, resume, applied);
    var b := a.FlushPendingVt();
    assert PacketsOk(b.wire, b.lost, Issued(b, |shown|), applied);
    assert FlowOk(b, shown, config, resume, applied);
    ExitFlow(b, exit, grid, shown, config, resume, applied);
    if ExitKnown(c, exit) {
      NothingQueued(a);
      ExitMade(b, exit, grid, shown, config, resume);
    }
    assert offset <= c.maxSent;
  }

  lemma {:induction false} NothingQueued(c: Conn)
    ensures c.pendingVt == [] ==> c.SendQueued() == c
  {
  }
}
