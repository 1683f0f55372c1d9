/**
 * A client that shows VT output and accepts grids: when output does not fit its credit it is to be given a grid
 * that covers it (RemoteTerminalProtocolServer.ts, `publishOutput`, `publishGrid`, `#flushPendingVt`). An
 * acknowledgement that arrives while a grid is awaited makes the server forget that it is, and exactly then the
 * client is left without output that a grid covers.
 */
module TerminalFallback {
  import opened Basics
  import opened Grids
  import opened TerminalState
  import opened TerminalSystem
  import opened TerminalReplay
  import opened TerminalCredit
  import opened TerminalVt
  import opened TerminalVtRuns
  import opened TerminalCreditRuns
  import TerminalGridRuns

  // ----- One connection -----

  /** An open VT connection to a client that accepts grids. */
  predicate Sharing(c: Conn) {
    c.open && c.initialized && c.mode == Vt && c.gridCapable
  }

  function Sent(c: Conn, resume: nat): nat { Max(resume, c.maxSent) }

  predicate NoGridSent(c: Conn) {
    c.pendingVt == [] && c.gridInFlight.None? && c.pendingGrid.None? && c.gridAcked.None?
  }

  /** All output was sent, or a grid is awaited that covers all of it. */
  predicate Even(c: Conn, shown: seq<Byte>, resume: nat, applied: nat) {
    && Sharing(c) && NoGridSent(c)
    && (if c.needsGrid.None? then Sent(c, resume) == |shown|
        else c.needsGrid.value == |shown| && Sent(c, resume) < |shown|)
    && c.acked <= Sent(c, resume)
    && PacketsOk(c.wire, c.lost, Sent(c, resume), applied)
  }

  /** Output after `gap` was skipped and will never be sent: what the client applied ends before it, and every
      packet on its way ends before it or starts behind it. */
  predicate Gapped(c: Conn, shown: seq<Byte>, applied: nat, gap: nat) {
    && Sharing(c) && NoGridSent(c) && applied <= gap < |shown|
    && (c.needsGrid.Some? ==> c.needsGrid.value <= |shown|)
    && (forall i :: 0 <= i < |c.wire| ==> KeepsVt(c.wire[i]))
    && (forall i :: 0 <= i < |c.wire| && c.wire[i].Output? ==>
          1 <= |c.wire[i].data| <= c.wire[i].end
          && (c.wire[i].end <= gap || gap < c.wire[i].end - |c.wire[i].data|))
  }

  predicate Falls(c: Conn, shown: seq<Byte>, resume: nat, applied: nat, forgot: bool) {
    if forgot then exists gap :: 0 <= gap < |shown| && Gapped(c, shown, applied, gap)
    else Even(c, shown, resume, applied)
  }

  /** The grid that is awaited is not there yet. */
  predicate Awaits(c: Conn, grid: Option<Grid>) {
    c.needsGrid.Some? && grid.Some? ==> grid.value.covers < c.needsGrid.value
  }

  lemma {:induction false} OtherPacketFalls(c: Conn, m: Down, shown: seq<Byte>, resume: nat, applied: nat, forgot: bool)
    requires Falls(c, shown, resume, applied, forgot) && !m.Output? && KeepsVt(m)
    ensures Falls(c.Send(m), shown, resume, applied, forgot)
    ensures c.Send(m).needsGrid == c.needsGrid
  {
    var d := c.Send(m);
    if forgot {
      var gap :| 0 <= gap < |shown| && Gapped(c, shown, applied, gap);
      assert Gapped(d, shown, applied, gap);
    } else {
      SendPackets(c, m, Sent(c, resume), applied);
    }
  }

  lemma {:induction false} OutputSent(c: Conn, chunk: Chunk, shown: seq<Byte>, resume: nat, applied: nat, forgot: bool)
    requires Falls(c, shown, resume, applied, forgot) && c.needsGrid.None?
    requires chunk.start == |shown| && 1 <= |chunk.data|
    ensures Falls(c.SendOutput(chunk), shown + chunk.data, resume, applied, forgot)
    ensures c.SendOutput(chunk).needsGrid.None?
  {
    var d := c.SendOutput(chunk);
    if forgot {
      var gap :| 0 <= gap < |shown| && Gapped(c, shown, applied, gap);
      assert Gapped(d, shown + chunk.data, applied, gap);
    } else {
      hide PacketsOk;
      SendPackets(c, Output(chunk.End(), chunk.data), |shown|, applied);
    }
  }

  /** Output that does not fit makes the connection wait for a grid that covers it. */
  lemma {:induction false} NeedFalls(c: Conn, chunk: Chunk, shown: seq<Byte>, resume: nat, applied: nat, forgot: bool)
    requires Falls(c, shown, resume, applied, forgot) && chunk.start == |shown| && 1 <= |chunk.data|
    ensures Falls(c.(needsGrid := Some(chunk.End())), shown + chunk.data, resume, applied, forgot)
  {
    var d := c.(needsGrid := Some(chunk.End()));
    if forgot {
      var gap :| 0 <= gap < |shown| && Gapped(c, shown, applied, gap);
      assert Gapped(d, shown + chunk.data, applied, gap);
    }
  }

  lemma {:induction false} SwitchLeaves(c: Conn, g: Grid)
    requires c.initialized
    ensures c.SwitchToGrid(g).mode == Semantic && c.SwitchToGrid(g).initialized
  {
  }

  lemma {:induction false} PublishFalls(c: Conn, chunk: Chunk, grid: Option<Grid>, shown: seq<Byte>, config: Config,
                                        resume: nat, applied: nat, forgot: bool)
    requires Falls(c, shown, resume, applied, forgot) && Awaits(c, grid)
    requires chunk.start == |shown| && 1 <= |chunk.data|
    ensures var d := c.PublishOutput(chunk, grid, config.maxBuffered);
            d.mode == Vt ==>
              Falls(d, shown + chunk.data, resume, applied, forgot) && Awaits(d, grid)
              && (c.needsGrid.Some? ==> d.needsGrid.Some?)
  {
    hide Conn.SwitchToGrid;
    hide Conn.SendOutput;
    assert Sharing(c) && (forgot || c.needsGrid.None? || c.needsGrid.value == |shown|);
    if c.needsGrid.Some? || chunk.End() - c.acked > c.credit {
      NeedFalls(c, chunk, shown, resume, applied, forgot);
      if grid.Some? { SwitchLeaves(c.(needsGrid := Some(chunk.End())), grid.value); }
    } else {
      OutputSent(c, chunk, shown, resume, applied, forgot);
    }
  }

  lemma {:induction false} PublishAllFalls(c: Conn, chunks: seq<Chunk>, grid: Option<Grid>, shown: seq<Byte>,
                                           all: seq<Byte>, config: Config, resume: nat, applied: nat, forgot: bool)
    requires Falls(c, shown, resume, applied, forgot) && Awaits(c, grid)
    requires shown <= all && Tiles(chunks, all, |shown|, config.wireChunk)
    ensures var d := c.PublishAll(chunks, grid, config.maxBuffered);
            d.open && d.mode == Vt ==> Falls(d, all, resume, applied, forgot) && Awaits(d, grid)
    decreases |chunks|
  {
    hide Conn.PublishOutput;
    hide Falls;
    if chunks == [] {
      assert shown == all;
    } else {
      var chunk := chunks[0];
      PublishFalls(c, chunk, grid, shown, config, resume, applied, forgot);
      var d := c.PublishOutput(chunk, grid, config.maxBuffered);
      var next := shown + chunk.data;
      assert next == all[..chunk.End()] by {
        assert all[..chunk.End()] == all[..chunk.start] + all[chunk.start..chunk.End()];
      }
      if d.mode == Vt {
        PublishAllFalls(d, chunks[1..], grid, next, all, config, resume, applied, forgot);
      } else {
        FallsInitialized(c, shown, resume, applied, forgot);
      }
    }
  }

  lemma {:induction false} FallsInitialized(c: Conn, shown: seq<Byte>, resume: nat, applied: nat, forgot: bool)
    requires Falls(c, shown, resume, applied, forgot)
    ensures Sharing(c) && NoGridSent(c) && (c.needsGrid.Some? ==> c.needsGrid.value <= |shown|)
  {
  }

  /** A grid that is awaited ends VT mode; any other leaves it as it is. */
  lemma {:induction false} GridFalls(c: Conn, previous: Option<Grid>, next: Grid)
    requires Sharing(c)
    ensures var d := c.PublishGrid(previous, next); d.mode == Vt ==> d == c && Awaits(d, Some(next))
  {
    hide Conn.SwitchToGrid;
    hide Conn.SendGrid;
    if c.needsGrid.Some? && next.covers >= c.needsGrid.value { SwitchLeaves(c, next); }
  }

  lemma {:induction false} ExitFalls(c: Conn, exit: Option<nat>, grid: Option<Grid>, shown: seq<Byte>, resume: nat,
                                     applied: nat, forgot: bool)
    requires Falls(c, shown, resume, applied, forgot)
    ensures var d := c.MaybeSendExit(exit, grid);
            Falls(d, shown, resume, applied, forgot) && d.needsGrid == c.needsGrid
  {
    FallsInitialized(c, shown, resume, applied, forgot);
    if exit.Some? {
      OtherPacketFalls(c, Exit(exit.value), shown, resume, applied, forgot);
      hide Falls;
      hide Conn.Send;
      MarkFalls(c.Send(Exit(exit.value)), shown, resume, applied, forgot);
    }
  }

  lemma {:induction false} MarkFalls(c: Conn, shown: seq<Byte>, resume: nat, applied: nat, forgot: bool)
    requires Falls(c, shown, resume, applied, forgot)
    ensures Falls(c.(exitSent := true), shown, resume, applied, forgot)
  {
    if forgot {
      var gap :| 0 <= gap < |shown| && Gapped(c, shown, applied, gap);
      assert Gapped(c.(exitSent := true), shown, applied, gap);
    }
  }

  // ----- Acknowledgements -----

  lemma {:induction false} AcknowledgedForm(c: Conn, offset: nat)
    requires Sharing(c) && NoGridSent(c)
    ensures var d := c.(acked := offset).FlushPendingVt();
            d == c.(acked := offset, needsGrid := None, paused := d.paused)
  {
  }

  lemma {:induction false} AcknowledgedFalls(c: Conn, offset: nat, paused: bool, shown: seq<Byte>, resume: nat,
                                             applied: nat, forgot: bool)
    requires Falls(c, shown, resume, applied, forgot) && c.acked <= offset <= c.maxSent
    ensures Falls(c.(acked := offset, needsGrid := None, paused := paused), shown, resume, applied,
                  forgot || c.needsGrid.Some?)
  {
    var d := c.(acked := offset, needsGrid := None, paused := paused);
    if forgot {
      var gap :| 0 <= gap < |shown| && Gapped(c, shown, applied, gap);
      assert Gapped(d, shown, applied, gap);
    } else if c.needsGrid.Some? {
      EvenPackets(c, shown, resume, applied);
      hide PacketsOk;
      assert Gapped(d, shown, applied, Sent(c, resume));
    }
  }

  /** An acknowledgement makes the connection forget a grid it awaits. */
  lemma {:induction false} AckFalls(c: Conn, offset: nat, exit: Option<nat>, grid: Option<Grid>, shown: seq<Byte>,
                                    resume: nat, applied: nat, forgot: bool)
    requires Falls(c, shown, resume, applied, forgot)
    ensures var d := c.OnOutputAck(offset, exit, grid);
            d.open ==> Falls(d, shown, resume, applied, forgot || c.needsGrid.Some?) && d.needsGrid.None?
  {
    FallsInitialized(c, shown, resume, applied, forgot);
    hide Conn.MaybeSendExit;
    hide Conn.SendQueued;
    hide Conn.Send;
    hide Falls;
    if c.acked <= offset <= c.maxSent {
      AcknowledgedForm(c, offset);
      hide Conn.FlushPendingVt;
      var d := c.(acked := offset).FlushPendingVt();
      AcknowledgedFalls(c, offset, d.paused, shown, resume, applied, forgot);
      ExitFalls(d, exit, grid, shown, resume, applied, forgot || c.needsGrid.Some?);
    }
  }

  lemma {:induction false} EvenPackets(c: Conn, shown: seq<Byte>, resume: nat, applied: nat)
    requires Even(c, shown, resume, applied)
    ensures applied <= Sent(c, resume)
    ensures forall i :: 0 <= i < |c.wire| ==> KeepsVt(c.wire[i]) && OutputWithin(c.wire[i], Sent(c, resume))
  {
  }

  // ----- Whole runs -----

  predicate Falling(s: System) { Sharing(s.conn) && s.client.open }

  /** The server handles an acknowledgement while it awaits a grid for the client. */
  predicate Forgets(s: System, a: Action) {
    a.ServerReceive? && Falling(s) && s.client.up != [] && s.client.up[0].OutputAck? && s.conn.needsGrid.Some?
  }

  predicate NeverForgets(s: System, actions: seq<Action>)
    requires 1 <= s.config.wireChunk
    decreases |actions|
  {
    actions != [] ==> !Forgets(s, actions[0]) && NeverForgets(Step(s, actions[0]), actions[1..])
  }

  predicate Tracked(s: System, forgot: bool) {
    && VtTracked(s)
    && (s.conn.open && !s.conn.initialized ==> Untouched(s.conn))
    && (Falling(s) ==>
          && s.client.mode == Vt && Awaits(s.conn, s.server.grid)
          && Falls(s.conn, s.server.bytes, s.hello.resume, s.client.applied, forgot))
  }

  lemma {:induction false} FallingBefore(s: System, t: System)
    requires Falling(t) && SameSetup(s, t) && s.conn.initialized && (t.client.open ==> s.client.open)
    ensures Falling(s)
  {
  }

  lemma {:induction false} CommitOutputFalls(s: System, data: seq<Byte>, forgot: bool)
    requires Tracked(s, forgot) && !s.server.resizing && s.server.exit.None?
    ensures Tracked(CommitOutput(s, data), forgot)
  {
    hide Conn.PublishAll;
    hide CommitChunks;
    hide Falls;
    CommitOutputTracked(s, data);
    CommitOutputOk(s, data);
    var t := CommitOutput(s, data);
    var chunks := Split(s.server.Offset(), data, s.config.wireChunk);
    CommittedGrid(s, data);
    if !s.conn.initialized {
      PublishAllBeforeHello(s.conn, chunks, s.server.grid, s.config.maxBuffered);
    } else if Falling(t) {
      FallingBefore(s, t);
      SplitTiles(s.server.bytes, data, s.config.wireChunk);
      PublishAllFalls(s.conn, chunks, s.server.grid, s.server.bytes, t.server.bytes, s.config, s.hello.resume,
                      s.client.applied, forgot);
    }
  }

  lemma {:induction false} CommittedGrid(s: System, data: seq<Byte>)
    requires 1 <= s.config.wireChunk
    ensures CommitOutput(s, data).server.grid == s.server.grid
  {
    TerminalGridRuns.CommitChunksKeepGrid(s.server, Split(s.server.Offset(), data, s.config.wireChunk), s.config.maxReplay);
  }

  lemma {:induction false} CommitGridFalls(s: System, state: Grid, forgot: bool)
    requires Tracked(s, forgot)
    ensures Tracked(CommitGrid(s, state), forgot)
  {
    hide Conn.PublishGrid;
    hide Falls;
    CommitGridTracked(s, state);
    var t := CommitGrid(s, state);
    if !s.conn.initialized {
      GridBeforeHello(s.conn, s.server.grid, t.server.grid.value);
    } else if Falling(t) {
      FallingBefore(s, t);
      GridFalls(s.conn, s.server.grid, t.server.grid.value);
    }
  }

  lemma {:induction false} GridBeforeHello(c: Conn, previous: Option<Grid>, next: Grid)
    requires !c.initialized
    ensures c.PublishGrid(previous, next) == c
  {
  }

  lemma {:induction false} CommitUpdateFalls(s: System, update: Update, forgot: bool)
    requires Tracked(s, forgot) && !s.server.resizing && s.server.exit.None?
    ensures Tracked(CommitUpdate(s, update), forgot)
  {
    hide CommitOutput;
    hide CommitGrid;
    CommitOutputFalls(s, update.data, forgot);
    var t := CommitOutput(s, update.data);
    CommitGridFalls(t, update.state.(covers := t.server.Offset()), forgot);
  }

  lemma {:induction false} CommitOutputsFall(s: System, outputs: seq<seq<Byte>>, forgot: bool)
    requires Tracked(s, forgot) && !s.server.resizing && (s.server.exit.Some? ==> outputs == [])
    ensures Tracked(CommitOutputs(s, outputs), forgot)
    decreases |outputs|
  {
    hide CommitOutput;
    if outputs != [] {
      CommitOutputFalls(s, outputs[0], forgot);
      CommitOutputTracked(s, outputs[0]);
      CommitOutputsFall(CommitOutput(s, outputs[0]), outputs[1..], forgot);
    }
  }

  lemma {:induction false} CommitUpdatesFall(s: System, updates: seq<Update>, forgot: bool)
    requires Tracked(s, forgot) && !s.server.resizing && (s.server.exit.Some? ==> updates == [])
    ensures Tracked(CommitUpdates(s, updates), forgot)
    decreases |updates|
  {
    hide CommitUpdate;
    if updates != [] {
      CommitUpdateFalls(s, updates[0], forgot);
      CommitUpdateTracked(s, updates[0]);
      CommitUpdatesFall(CommitUpdate(s, updates[0]), updates[1..], forgot);
    }
  }

  lemma {:induction false} CommitGridsFall(s: System, grids: seq<Grid>, forgot: bool)
    requires Tracked(s, forgot)
    ensures Tracked(CommitGrids(s, grids), forgot)
    decreases |grids|
  {
    hide CommitGrid;
    if grids != [] {
      CommitGridFalls(s, grids[0], forgot);
      CommitGridsFall(CommitGrid(s, grids[0]), grids[1..], forgot);
    }
  }

  lemma {:induction false} FlushDeferredFalls(s: System, forgot: bool)
    requires Tracked(s, forgot)
    ensures Tracked(FlushDeferred(s), forgot)
  {
    hide CommitOutputs;
    hide CommitUpdates;
    hide CommitGrids;
    hide Falls;
    var server := s.server;
    var cleared := s.(server := server.(resizing := false, deferredOutput := [], deferredUpdates := [],
                                        deferredGrids := [], deferredBytes := 0));
    ServerGrows(s, cleared);
    CommitOutputsTracked(cleared, server.deferredOutput);
    CommitOutputsFall(cleared, server.deferredOutput, forgot);
    var t := CommitOutputs(cleared, server.deferredOutput);
    CommitUpdatesFall(t, server.deferredUpdates, forgot);
    CommitGridsFall(CommitUpdates(t, server.deferredUpdates), server.deferredGrids, forgot);
  }

  lemma {:induction false} AnnounceFalls(s: System, cols: nat, rows: nat, forgot: bool)
    requires Tracked(s, forgot) && s.server.resizing && ValidDimensions(cols, rows)
    ensures Tracked(AnnounceResize(s, cols, rows), forgot)
  {
    hide Falls;
    hide VtTracked;
    hide Untouched;
    hide Conn.Send;
    AnnounceTracked(s, cols, rows);
    var t := AnnounceResize(s, cols, rows);
    var r := Resize(s.server.barrier, cols, rows, s.server.resizeRevision + 1);
    if s.conn.open {
      if !s.conn.initialized {
        UntouchedSent(s.conn, r);
      } else if Falling(t) {
        FallingBefore(s, t);
        OtherPacketFalls(s.conn, Resized(r), s.server.bytes, s.hello.resume, s.client.applied, forgot);
      }
    }
  }

  // ----- Deliveries -----

  /** What a VT client makes of one packet of this connection. */
  lemma {:induction false} VtReceives(s: System)
    requires VtTracked(s) && s.client.open && s.conn.wire != [] && s.client.mode == Vt
    requires var m := s.conn.wire[0]; KeepsVt(m) && (m.Output? ==> 1 <= |m.data| <= m.end)
    requires Delivered(s).client.open
    ensures var m, c := s.conn.wire[0], Delivered(s).client;
            && c.mode == Vt
            && c.applied == if m.Output? && m.end - |m.data| == s.client.applied then m.end else s.client.applied
  {
    var m := s.conn.wire[0];
    assert WelcomeOk(m, s);
    assert m.Welcome? && !s.client.ready ==> s.client == NewClient(s.hello.epoch, s.hello.resume);
  }

  lemma {:induction false} DeliveryFalls(s: System, forgot: bool)
    requires Tracked(s, forgot) && Falling(s) && s.conn.wire != [] && Delivered(s).client.open
    ensures var t := Delivered(s);
            t.client.mode == Vt && Falls(t.conn, t.server.bytes, t.hello.resume, t.client.applied, forgot)
  {
    var c, t, wire := s.conn, Delivered(s), s.conn.wire;
    if forgot {
      var gap :| 0 <= gap < |s.server.bytes| && Gapped(c, s.server.bytes, s.client.applied, gap);
      VtReceives(s);
      hide VtTracked;
      assert forall i :: 0 <= i < |t.conn.wire| ==> t.conn.wire[i] == wire[i + 1];
      assert Gapped(t.conn, s.server.bytes, t.client.applied, gap);
    } else {
      EvenPackets(c, s.server.bytes, s.hello.resume, s.client.applied);
      VtReceives(s);
      hide VtTracked;
      PacketTaken(wire, c.lost, Sent(c, s.hello.resume), s.client.applied);
      hide PacketsOk;
    }
  }

  lemma {:induction false} ReceiveFalls(s: System, forgot: bool)
    requires Tracked(s, forgot) && s.client.open && s.conn.wire != []
    ensures Tracked(Step(s, ClientReceive), forgot)
  {
    hide Client.Receive;
    hide Falls;
    DeliveredTracked(s);
    var t := Step(s, ClientReceive);
    if s.conn.open && !s.conn.initialized {
      forall i | 0 <= i < |t.conn.wire| ensures t.conn.wire[i].Resized? {
        assert t.conn.wire[i] == s.conn.wire[i + 1];
      }
    } else if Falling(t) {
      DeliveryFalls(s, forgot);
    }
  }

  lemma {:induction false} HandleUpFalls(s: System, forgot: bool)
    requires Tracked(s, forgot) && Falling(s) && s.client.up != []
    ensures var t := Step(s, ServerReceive);
            Falling(t) ==>
              Awaits(t.conn, t.server.grid)
              && Falls(t.conn, t.server.bytes, t.hello.resume, t.client.applied, forgot || Forgets(s, ServerReceive))
  {
    hide Conn.OnOutputAck;
    hide Conn.SwitchToGrid;
    FallsInitialized(s.conn, s.server.bytes, s.hello.resume, s.client.applied, forgot);
    hide Falls;
    match s.client.up[0]
    case OutputAck(offset) =>
      AckFalls(s.conn, offset, s.server.exit, s.server.grid, s.server.bytes, s.hello.resume, s.client.applied, forgot);
    case Resync => if s.server.grid.Some? { SwitchLeaves(s.conn, s.server.grid.value); }
    case _ =>
  }

  lemma {:induction false} ServerReceiveFalls(s: System, forgot: bool)
    requires Tracked(s, forgot) && s.conn.open && s.conn.initialized && s.client.up != []
    ensures Tracked(Step(s, ServerReceive), forgot || Forgets(s, ServerReceive))
  {
    hide HandleUp;
    hide Falls;
    ServerReceiveTracked(s);
    var t := Step(s, ServerReceive);
    if Falling(t) {
      FallingBefore(s, t);
      HandleUpFalls(s, forgot);
    }
  }

  // ----- The hello -----

  /** An attachment that may replay, once its welcome was sent: it was shown everything up to its offset. */
  lemma {:induction false} WelcomeFalls(c: Conn, credit: nat, welcome: Down, shown: seq<Byte>)
    requires Untouched(c) && c.open && KeepsVt(welcome) && welcome.Welcome?
    ensures var d := c.(gridCapable := true, credit := credit).(mode := Vt, acked := |shown|)
                      .Send(welcome).(initialized := true);
            Even(d, shown, |shown|, |shown|)
  {
    var a := c.(gridCapable := true, credit := credit).(mode := Vt, acked := |shown|);
    NoOutputContiguous(c.wire, |shown|);
    assert PacketsOk(a.wire, a.lost, |shown|, |shown|);
    hide PacketsOk;
    hide Conn.Send;
    SendPackets(a, welcome, |shown|, |shown|);
  }

  lemma {:induction false} ReplayFalls(d: Conn, terms: Terms, shown: seq<Byte>, all: seq<Byte>, config: Config,
                                       resume: nat)
    requires Even(d, shown, resume, resume) && d.needsGrid.None? && shown <= all
    requires Tiles(terms.replay, all, |shown|, config.wireChunk)
    ensures var e := d.Replay(terms, config);
            e.open && e.mode == Vt ==> Falls(e, all, resume, resume, false) && Awaits(e, terms.grid)
  {
    hide Conn.PublishAll;
    hide Conn.SwitchToGrid;
    hide Conn.MaybeSendExit;
    hide Even;
    var e := d.PublishAll(terms.replay, terms.grid, config.maxBuffered);
    PublishAllFalls(d, terms.replay, terms.grid, shown, all, config, resume, resume, false);
    EvenInitialized(d, shown, resume, resume);
    if terms.grid.Some? { SwitchLeaves(e, terms.grid.value); }
    if e.open && e.mode == Vt { ExitFalls(e, terms.exit, terms.grid, all, resume, resume, false); }
  }

  lemma {:induction false} EvenInitialized(c: Conn, shown: seq<Byte>, resume: nat, applied: nat)
    requires Even(c, shown, resume, applied)
    ensures c.initialized
  {
  }

  lemma {:induction false} HelloReplays(s: System)
    requires Untouched(s.conn) && s.conn.open && !s.conn.initialized && s.client.open && s.hello.grid
    requires s.client == NewClient(s.hello.epoch, s.hello.resume)
    requires 1 <= s.config.wireChunk <= s.hello.credit
    requires s.hello.resume <= s.server.Offset() && CanReplay(s.hello, TermsFor(s), s.config)
    requires Tiles(TermsFor(s).replay, s.server.bytes, s.hello.resume, s.config.wireChunk)
    ensures var t := Step(s, ReceiveHello);
            Falling(t) ==>
              Awaits(t.conn, t.server.grid)
              && Falls(t.conn, t.server.bytes, t.hello.resume, t.client.applied, false)
  {
    hide Conn.Replay;
    hide Conn.Send;
    hide Tiles;
    hide CanReplay;
    hide Falls;
    hide ReplayAfter;
    var terms := TermsFor(s);
    var t := Step(s, ReceiveHello);
    var welcome := Welcome(Vt, terms.resizeRevision, s.config.epoch);
    var credit := Min(s.hello.credit, s.config.maxUnacknowledged);
    var shown := s.server.bytes[..s.hello.resume];
    WelcomeFalls(s.conn, credit, welcome, shown);
    var d := s.conn.(gridCapable := true, credit := credit).(mode := Vt, acked := s.hello.resume)
                   .Send(welcome).(initialized := true);
    WelcomeNeedsNone(s.conn, credit, welcome, s.hello.resume);
    ReplayFalls(d, terms, shown, s.server.bytes, s.config, s.hello.resume);
    assert t.conn == d.Replay(terms, s.config);
  }

  lemma {:induction false} WelcomeNeedsNone(c: Conn, credit: nat, welcome: Down, resume: nat)
    requires Untouched(c)
    ensures c.(gridCapable := true, credit := credit).(mode := Vt, acked := resume).Send(welcome)
             .(initialized := true).needsGrid.None?
  {
  }

  lemma {:induction false} NotFalling(c: Conn, hello: Hello, terms: Terms, config: Config)
    requires !c.initialized
    requires !CanReplay(hello, terms, config) || hello.credit < config.wireChunk || !hello.grid
    ensures var d := c.Initialize(hello, terms, config); !d.open || d.mode == Semantic || !d.gridCapable
  {
    hide Conn.SendKeyframe;
    hide Conn.MaybeSendExit;
    hide Conn.Replay;
  }

  lemma {:induction false} HelloFalls(s: System)
    requires Tracked(s, false) && s.conn.open && !s.conn.initialized
    ensures Tracked(Step(s, ReceiveHello), false)
  {
    hide Conn.Initialize;
    hide Falls;
    hide CanReplay;
    hide Conn.Replay;
    HelloTracked(s);
    InitializeOrClose(s.conn, s.hello, TermsFor(s), s.config);
    if s.client.open {
      if CanReplay(s.hello, TermsFor(s), s.config) && s.hello.credit >= s.config.wireChunk && s.hello.grid {
        RetainedResume(s);
        ReplayIsExact(s.server.chunks, s.server.bytes, s.server.Oldest(), s.config.wireChunk, s.hello.resume);
        HelloReplays(s);
      } else {
        NotFalling(s.conn, s.hello, TermsFor(s), s.config);
      }
    }
  }

  lemma {:induction false} RetainedResume(s: System)
    requires CanReplay(s.hello, TermsFor(s), s.config)
    ensures s.server.Oldest() <= s.hello.resume <= s.server.Offset()
  {
  }

  // ----- Steps and runs -----

  lemma {:induction false} ExitTrackedFalls(s: System, forgot: bool)
    requires Tracked(s, forgot) && !s.server.resizing && s.server.exit.None?
    ensures Tracked(Step(s, PublishExit), forgot)
  {
    hide Conn.MaybeSendExit;
    hide Falls;
    ExitTracked(s);
    var exit := Some(s.server.Offset());
    if Falling(s) {
      ExitFalls(s.conn, exit, s.server.grid, s.server.bytes, s.hello.resume, s.client.applied, forgot);
    } else if !s.conn.initialized {
      ExitBeforeHello(s.conn, exit, s.server.grid);
    }
  }

  lemma {:induction false} DrainFalls(s: System, forgot: bool)
    requires Tracked(s, forgot) && s.conn.open
    ensures Tracked(Step(s, Drain), forgot)
  {
    hide Conn.Drain;
    hide PacketsOk;
    DrainTracked(s);
    var t := Step(s, Drain);
    if Falling(s) || !s.conn.initialized {
      assert s.conn.pendingGrid.None?;
      NothingToFlush(s.conn);
      if Falling(s) { UnblockedFalls(s.conn, s.server.bytes, s.hello.resume, s.client.applied, forgot); }
    } else if Falling(t) {
      FallingBefore(s, t);
    }
  }

  lemma {:induction false} UnblockedFalls(c: Conn, shown: seq<Byte>, resume: nat, applied: nat, forgot: bool)
    requires Falls(c, shown, resume, applied, forgot)
    ensures forall blocked, room :: Falls(c.(blocked := blocked, room := room), shown, resume, applied, forgot)
  {
    hide PacketsOk;
    forall blocked, room ensures Falls(c.(blocked := blocked, room := room), shown, resume, applied, forgot) {
      if forgot {
        var gap :| 0 <= gap < |shown| && Gapped(c, shown, applied, gap);
        assert Gapped(c.(blocked := blocked, room := room), shown, applied, gap);
      }
    }
  }

  lemma {:induction false} StillFalls(s: System, t: System, forgot: bool)
    requires Tracked(s, forgot) && VtTracked(t)
    requires t == s.(server := t.server, conn := s.conn.(room := t.conn.room))
    requires t.server.bytes == s.server.bytes && t.server.grid == s.server.grid
    ensures Tracked(t, forgot)
  {
    hide VtTracked;
    hide Falls;
    if Falling(s) { UnblockedFalls(s.conn, s.server.bytes, s.hello.resume, s.client.applied, forgot); }
    assert s.conn.(blocked := s.conn.blocked, room := t.conn.room) == t.conn;
  }

  lemma {:induction false} DeferGrid(s: System, a: Action)
    requires 1 <= s.config.wireChunk && s.server.resizing && (a.PublishOutput? || a.PublishGrid? || a.PublishUpdate?)
    ensures Step(s, a).server.grid == s.server.grid
  {
  }

  lemma {:induction false} PublishTracked(s: System, a: Action, forgot: bool)
    requires Tracked(s, forgot) && 1 <= s.config.wireChunk && VtTracked(Step(s, a))
    requires (a.PublishOutput? || a.PublishGrid? || a.PublishUpdate?)
    ensures Tracked(Step(s, a), forgot)
  {
    hide CommitOutput;
    hide CommitGrid;
    hide CommitUpdate;
    hide Tracked;
    if s.server.resizing {
      DeferForm(s, a);
      DeferGrid(s, a);
      StillFalls(s, Step(s, a), forgot);
    } else if MayPublish(s) {
      match a
      case PublishOutput(data) => CommitOutputFalls(s, data, forgot);
      case PublishGrid(state, size) => CommitGridFalls(s, state, forgot);
      case PublishUpdate(update) => CommitUpdateFalls(s, update, forgot);
    }
  }

  lemma {:induction false} StepFalls(s: System, a: Action, forgot: bool)
    requires Tracked(s, forgot) && (forgot ==> s.conn.initialized)
    ensures Tracked(Step(s, a), forgot || Forgets(s, a))
  {
    hide CommitOutput;
    hide CommitGrid;
    hide CommitUpdate;
    hide Conn.Drain;
    hide Conn.Initialize;
    hide Conn.MaybeSendExit;
    hide HandleUp;
    hide Client.Receive;
    hide FlushDeferred;
    hide AnnounceResize;
    hide Falls;
    hide Untouched;
    StepTracked(s, a);
    match a
    case SetRoom(room) => StillFalls(s, Step(s, a), forgot);
    case ReceiveHello => if s.conn.open && !s.conn.initialized { HelloFalls(s); }
    case PublishOutput(data) => PublishTracked(s, a, forgot);
    case PublishGrid(state, size) => PublishTracked(s, a, forgot);
    case PublishUpdate(update) => PublishTracked(s, a, forgot);
    case ResizeBegin => StillFalls(s, Step(s, a), forgot);
    case ResizeEnd(cols, rows, succeeded) =>
      if s.server.resizing && ValidDimensions(cols, rows) {
        AnnounceFalls(s, cols, rows, forgot);
        FlushDeferredFalls(if succeeded then AnnounceResize(s, cols, rows) else s, forgot);
      }
    case PublishExit => if !s.server.resizing && s.server.exit.None? { ExitTrackedFalls(s, forgot); }
    case Drain => if s.conn.open { DrainFalls(s, forgot); }
    case ClientReceive => if s.client.open && s.conn.wire != [] { ReceiveFalls(s, forgot); }
    case ServerReceive =>
      if s.conn.open && s.conn.initialized && s.client.up != [] { ServerReceiveFalls(s, forgot); }
    case Disconnect => ClosedFalls(s, forgot);
  }

  lemma {:induction false} ClosedFalls(s: System, forgot: bool)
    requires Tracked(s, forgot) && VtTracked(Step(s, Disconnect))
    ensures Tracked(Step(s, Disconnect), forgot)
  {
  }

  lemma {:induction false} Reached(s: System, a: Action, forgot: bool)
    requires Tracked(s, forgot) && (forgot ==> s.conn.initialized)
    ensures forgot || Forgets(s, a) ==> Step(s, a).conn.initialized
  {
    hide Step;
    assert s.conn.Grown(Step(s, a).conn);
  }

  lemma {:induction false} RunFalls(s: System, actions: seq<Action>, forgot: bool)
    requires Tracked(s, forgot) && (forgot ==> s.conn.initialized)
    ensures Tracked(Run(s, actions), forgot || !NeverForgets(s, actions))
    decreases |actions|
  {
    hide Step;
    hide Falls;
    hide Forgets;
    if actions != [] {
      StepFalls(s, actions[0], forgot);
      Reached(s, actions[0], forgot);
      RunFalls(Step(s, actions[0]), actions[1..], forgot || Forgets(s, actions[0]));
    }
  }

  lemma {:induction false} InitialFalls(s: System)
    requires Initial(s) && s.resizesBefore <= |s.server.resizes|
    ensures Tracked(s, false)
  {
    InitialTracked(s);
  }

  /** In every run a grid that is awaited is one the server does not have yet: as soon as its grid covers the
      output that did not fit, the client is in grid mode. */
  lemma {:induction false} AwaitedGridIsMissing(s0: System, actions: seq<Action>)
    requires Initial(s0) && s0.resizesBefore <= |s0.server.resizes|
    ensures var s := Run(s0, actions);
            Falling(s) && s.conn.needsGrid.Some? && s.server.grid.Some? ==>
              s.server.grid.value.covers < s.conn.needsGrid.value <= s.server.Offset()
  {
    InitialFalls(s0);
    RunFalls(s0, actions, false);
    var s := Run(s0, actions);
    hide Run;
    if Falling(s) {
      FallsInitialized(s.conn, s.server.bytes, s.hello.resume, s.client.applied, !NeverForgets(s0, actions));
    }
  }

  /** With both channels empty and no output lost, a client that accepts grids, is still in VT mode and could be
      given a grid that covers all the output has all of it exactly when no acknowledgement arrived while a grid
      was awaited. */
  lemma {:induction false} HasAllIff(s0: System, actions: seq<Action>)
    requires Initial(s0) && s0.resizesBefore <= |s0.server.resizes|
    ensures var s := Run(s0, actions);
            Falling(s) && s.conn.wire == [] && s.client.up == [] && !AnyOutput(s.conn.lost)
            && s.server.grid.Some? && s.server.Offset() <= s.server.grid.value.covers ==>
              (s.client.applied == s.server.Offset() <==> NeverForgets(s0, actions))
  {
    InitialFalls(s0);
    RunFalls(s0, actions, false);
    AwaitedGridIsMissing(s0, actions);
    var s := Run(s0, actions);
    hide Run;
    hide VtTracked;
    if Falling(s) && s.conn.wire == [] && !AnyOutput(s.conn.lost) && NeverForgets(s0, actions) {
      assert Even(s.conn, s.server.bytes, s.hello.resume, s.client.applied);
    }
  }
}
