/** Flow control over whole runs of a VT-only attachment. */
module TerminalCreditRuns {
  import opened Basics
  import opened Grids
  import opened TerminalState
  import opened TerminalSystem
  import opened TerminalReplay
  import opened TerminalCredit
  import opened TerminalVt
  import opened TerminalVtRuns

  /** An open connection to a client that can show nothing but VT output. */
  predicate Flowing(s: System) {
    s.conn.open && s.conn.initialized && s.conn.mode == Vt && !s.conn.gridCapable && s.client.open
  }

  /** Output acknowledgements in `ms` rise strictly from `from` to `to`. */
  predicate AckChain(ms: seq<Up>, from: nat, to: nat)
    decreases |ms|
  {
    if ms == [] then from == to
    else if ms[0].OutputAck? then from < ms[0].offset && AckChain(ms[1..], ms[0].offset, to)
    else AckChain(ms[1..], from, to)
  }

  lemma {:induction false} AckChainBound(ms: seq<Up>, from: nat, to: nat)
    requires AckChain(ms, from, to)
    ensures from <= to
    decreases |ms|
  {
    if ms != [] { AckChainBound(ms[1..], if ms[0].OutputAck? then ms[0].offset else from, to); }
  }

  lemma {:induction false} AckChainAppend(ms: seq<Up>, from: nat, to: nat, m: Up)
    requires AckChain(ms, from, to)
    requires m.OutputAck? ==> to < m.offset
    ensures AckChain(ms + [m], from, if m.OutputAck? then m.offset else to)
    decreases |ms|
  {
    if ms == [] {
      assert ms + [m] == [m] && [m][1..] == [];
      assert m.OutputAck? ==> AckChain([], m.offset, m.offset);
    } else {
      assert (ms + [m])[1..] == ms[1..] + [m];
      AckChainAppend(ms[1..], if ms[0].OutputAck? then ms[0].offset else from, to, m);
    }
  }

  /** A connection that has not seen the hello has sent no output. */
  predicate Untouched(c: Conn) {
    && c == Attached(c.mayWrite, 0).(wire := c.wire, lost := c.lost, blocked := c.blocked, room := c.room)
    && !AnyOutput(c.lost)
    && forall i :: 0 <= i < |c.wire| ==> c.wire[i].Resized?
  }

  predicate Flows(s: System) {
    && s.client.mode == Vt
    && FlowOk(s.conn, s.server.bytes, s.config, s.hello.resume, s.client.applied)
    && AckChain(s.client.up, s.conn.acked, s.client.applied)
    && ExitKnown(s.conn, s.server.exit)
  }

  predicate FlowTracked(s: System) {
    && VtTracked(s)
    && (s.conn.open && !s.conn.initialized ==> Untouched(s.conn))
    && (Flowing(s) ==> Flows(s))
  }

  lemma {:induction false} NoOutputContiguous(ms: seq<Down>, at: nat)
    requires !AnyOutput(ms)
    ensures Contiguous(ms, at, at)
    decreases |ms|
  {
    if ms != [] {
      assert !ms[0].Output?;
      forall i | 0 <= i < |ms[1..]| ensures !ms[1..][i].Output? {
        assert ms[1..][i] == ms[i + 1];
      }
      NoOutputContiguous(ms[1..], at);
    }
  }

  // ----- The hello -----

  /** An attachment that may replay, once its welcome was sent: it was shown everything up to its offset. */
  lemma {:induction false} WelcomeFlow(c: Conn, credit: nat, welcome: Down, shown: seq<Byte>, config: Config)
    requires Untouched(c) && c.open && 1 <= config.wireChunk <= credit
    requires KeepsVt(welcome) && welcome.Welcome?
    ensures var d := c.(gridCapable := false, credit := credit).(mode := Vt, acked := |shown|)
                      .Send(welcome).(initialized := true);
            FlowOk(d, shown, config, |shown|, |shown|) && !d.exitSent && d.acked == |shown|
  {
    var a := c.(gridCapable := false, credit := credit).(mode := Vt, acked := |shown|);
    NoOutputContiguous(c.wire, |shown|);
    assert PacketsOk(a.wire, a.lost, |shown|, |shown|);
    hide PacketsOk;
    hide Conn.Send;
    SendPackets(a, welcome, |shown|, |shown|);
  }

  lemma {:induction false} HelloFlow(s: System)
    requires FlowTracked(s) && s.conn.open && !s.conn.initialized && s.client.open
    ensures Flowing(Step(s, ReceiveHello)) ==> Flows(Step(s, ReceiveHello))
  {
    var terms := TermsFor(s);
    var t := Step(s, ReceiveHello);
    if CanReplay(s.hello, terms, s.config) && s.hello.credit >= s.config.wireChunk && !s.hello.grid {
      ReplayIsExact(s.server.chunks, s.server.bytes, s.server.Oldest(), s.config.wireChunk, s.hello.resume);
      HelloReplays(s);
    } else {
      NotFlowing(s.conn, s.hello, terms, s.config);
    }
  }

  lemma {:induction false} HelloReplays(s: System)
    requires Untouched(s.conn) && s.conn.open && !s.conn.initialized && s.client.open && !s.hello.grid
    requires s.client == NewClient(s.hello.epoch, s.hello.resume)
    requires 1 <= s.config.wireChunk <= Min(s.hello.credit, s.config.maxUnacknowledged)
    requires s.hello.resume <= s.server.Offset() && CanReplay(s.hello, TermsFor(s), s.config)
    requires Tiles(TermsFor(s).replay, s.server.bytes, s.hello.resume, s.config.wireChunk)
    ensures Flowing(Step(s, ReceiveHello)) ==> Flows(Step(s, ReceiveHello))
  {
    hide Conn.Replay;
    hide Conn.Send;
    hide Tiles;
    hide CanReplay;
    hide FlowOk;
    hide ReplayAfter;
    var terms := TermsFor(s);
    var t := Step(s, ReceiveHello);
    var welcome := Welcome(Vt, terms.resizeRevision, s.config.epoch);
    var credit := Min(s.hello.credit, s.config.maxUnacknowledged);
    var shown := s.server.bytes[..s.hello.resume];
    WelcomeFlow(s.conn, credit, welcome, shown, s.config);
    var d := s.conn.(gridCapable := false, credit := credit).(mode := Vt, acked := s.hello.resume)
                   .Send(welcome).(initialized := true);
    ReplayFlow(d, terms, shown, s.server.bytes, s.config, s.hello.resume);
    assert t.conn == d.Replay(terms, s.config);
  }

  lemma {:induction false} NotFlowing(c: Conn, hello: Hello, terms: Terms, config: Config)
    requires !c.initialized
    requires !CanReplay(hello, terms, config) || hello.credit < config.wireChunk || hello.grid
    ensures var d := c.Initialize(hello, terms, config); !d.open || d.mode == Semantic || d.gridCapable
  {
    hide Conn.SendKeyframe;
    hide Conn.MaybeSendExit;
    hide Conn.Replay;
  }

  lemma {:induction false} ReplayFlow(d: Conn, terms: Terms, shown: seq<Byte>, all: seq<Byte>, config: Config,
                                      resume: nat)
    requires FlowOk(d, shown, config, resume, resume) && shown <= all && !d.exitSent
    requires Tiles(terms.replay, all, |shown|, config.wireChunk)
    ensures var e := d.Replay(terms, config);
            e.open && e.mode == Vt ==>
              FlowOk(e, all, config, resume, resume) && e.acked == d.acked && ExitKnown(e, terms.exit)
  {
    hide Conn.PublishAll;
    hide Conn.SwitchToGrid;
    hide Conn.MaybeSendExit;
    var e := d.PublishAll(terms.replay, terms.grid, config.maxBuffered);
    PublishAllFlow(d, terms.replay, terms.grid, shown, all, config, resume, resume);
    if e.open {
      ExitFlow(e, terms.exit, terms.grid, all, config, resume, resume);
      ExitMade(e, terms.exit, terms.grid, all, config, resume);
      if terms.grid.Some? { SwitchIsSemantic(e, terms.grid.value); }
    }
  }

  lemma {:induction false} SwitchIsSemantic(c: Conn, g: Grid)
    requires c.initialized
    ensures c.SwitchToGrid(g).mode == Semantic && c.SwitchToGrid(g).initialized
  {
  }

  // ----- Host calls -----

  /** After a hello a connection that does not flow never will. */
  lemma {:induction false} FlowingBefore(s: System, t: System)
    requires Flowing(t) && SameSetup(s, t) && s.conn.initialized && (t.client.open ==> s.client.open)
    ensures Flowing(s)
  {
  }

  lemma {:induction false} CommitOutputFlow(s: System, data: seq<Byte>)
    requires FlowTracked(s) && !s.server.resizing && s.server.exit.None?
    ensures FlowTracked(CommitOutput(s, data))
  {
    hide Conn.PublishAll;
    hide CommitChunks;
    CommitOutputTracked(s, data);
    CommitOutputOk(s, data);
    var t := CommitOutput(s, data);
    var chunks := Split(s.server.Offset(), data, s.config.wireChunk);
    if !s.conn.initialized {
      PublishAllBeforeHello(s.conn, chunks, s.server.grid, s.config.maxBuffered);
    } else if Flowing(t) {
      FlowingBefore(s, t);
      SplitTiles(s.server.bytes, data, s.config.wireChunk);
      PublishAllFlow(s.conn, chunks, s.server.grid, s.server.bytes, t.server.bytes, s.config, s.hello.resume,
                     s.client.applied);
    }
  }

  lemma {:induction false} CommitGridFlow(s: System, state: Grid)
    requires FlowTracked(s)
    ensures FlowTracked(CommitGrid(s, state))
  {
    CommitGridTracked(s, state);
    var t := CommitGrid(s, state);
    hide Conn.SwitchToGrid;
    hide Conn.SendGrid;
    if s.conn.initialized && Flowing(t) {
      FlowingBefore(s, t);
      assert t.conn == s.conn;
    }
  }

  lemma {:induction false} CommitUpdateFlow(s: System, update: Update)
    requires FlowTracked(s) && !s.server.resizing && s.server.exit.None?
    ensures FlowTracked(CommitUpdate(s, update))
  {
    hide CommitOutput;
    hide CommitGrid;
    CommitOutputFlow(s, update.data);
    var t := CommitOutput(s, update.data);
    CommitGridFlow(t, update.state.(covers := t.server.Offset()));
  }

  lemma {:induction false} CommitOutputsFlow(s: System, outputs: seq<seq<Byte>>)
    requires FlowTracked(s) && !s.server.resizing && (s.server.exit.Some? ==> outputs == [])
    ensures FlowTracked(CommitOutputs(s, outputs))
    decreases |outputs|
  {
    hide CommitOutput;
    if outputs != [] {
      CommitOutputFlow(s, outputs[0]);
      CommitOutputTracked(s, outputs[0]);
      CommitOutputsFlow(CommitOutput(s, outputs[0]), outputs[1..]);
    }
  }

  lemma {:induction false} CommitUpdatesFlow(s: System, updates: seq<Update>)
    requires FlowTracked(s) && !s.server.resizing && (s.server.exit.Some? ==> updates == [])
    ensures FlowTracked(CommitUpdates(s, updates))
    decreases |updates|
  {
    hide CommitUpdate;
    if updates != [] {
      CommitUpdateFlow(s, updates[0]);
      CommitUpdateTracked(s, updates[0]);
      CommitUpdatesFlow(CommitUpdate(s, updates[0]), updates[1..]);
    }
  }

  lemma {:induction false} CommitGridsFlow(s: System, grids: seq<Grid>)
    requires FlowTracked(s)
    ensures FlowTracked(CommitGrids(s, grids))
    decreases |grids|
  {
    hide CommitGrid;
    if grids != [] {
      CommitGridFlow(s, grids[0]);
      CommitGridsFlow(CommitGrid(s, grids[0]), grids[1..]);
    }
  }

  lemma {:induction false} FlushDeferredFlow(s: System)
    requires FlowTracked(s)
    ensures FlowTracked(FlushDeferred(s))
  {
    hide CommitOutputs;
    hide CommitUpdates;
    hide CommitGrids;
    hide FlowOk;
    var server := s.server;
    var cleared := s.(server := server.(resizing := false, deferredOutput := [], deferredUpdates := [],
                                        deferredGrids := [], deferredBytes := 0));
    ServerGrows(s, cleared);
    CommitOutputsTracked(cleared, server.deferredOutput);
    CommitOutputsFlow(cleared, server.deferredOutput);
    var t := CommitOutputs(cleared, server.deferredOutput);
    CommitUpdatesFlow(t, server.deferredUpdates);
    CommitGridsFlow(CommitUpdates(t, server.deferredUpdates), server.deferredGrids);
  }

  lemma {:induction false} AnnounceFlow(s: System, cols: nat, rows: nat)
    requires FlowTracked(s) && s.server.resizing && ValidDimensions(cols, rows)
    ensures FlowTracked(AnnounceResize(s, cols, rows))
  {
    hide FlowOk;
    hide VtTracked;
    hide AckChain;
    hide Untouched;
    hide Conn.Send;
    AnnounceTracked(s, cols, rows);
    var t := AnnounceResize(s, cols, rows);
    var r := Resize(s.server.barrier, cols, rows, s.server.resizeRevision + 1);
    if s.conn.open {
      if !s.conn.initialized {
        UntouchedSent(s.conn, r);
      } else if Flowing(t) {
        FlowingBefore(s, t);
        OtherSent(s.conn, Resized(r), s.server.bytes, s.config, s.hello.resume, s.client.applied);
      }
    }
  }

  lemma {:induction false} UntouchedSent(c: Conn, r: Resize)
    requires Untouched(c)
    ensures Untouched(c.Send(Resized(r))) && !c.Send(Resized(r)).initialized
  {
    var d := c.Send(Resized(r));
    forall i | 0 <= i < |d.wire| ensures d.wire[i].Resized? {
      assert i < |c.wire| ==> d.wire[i] == c.wire[i];
    }
    forall i | 0 <= i < |d.lost| ensures !d.lost[i].Output? {
      assert i < |c.lost| ==> d.lost[i] == c.lost[i];
    }
  }

  // ----- Deliveries -----

  lemma {:induction false} PacketTaken(wire: seq<Down>, lost: seq<Down>, issued: nat, applied: nat)
    requires PacketsOk(wire, lost, issued, applied) && wire != []
    ensures wire[0].Output? && wire[0].end - |wire[0].data| == applied ==>
              PacketsOk(wire[1..], lost, issued, wire[0].end)
    ensures wire[0].Output? && wire[0].end - |wire[0].data| != applied ==> AnyOutput(lost)
    ensures !(wire[0].Output? && wire[0].end - |wire[0].data| == applied) ==>
              PacketsOk(wire[1..], lost, issued, applied)
  {
    var rest := wire[1..];
    forall i | 0 <= i < |rest| ensures rest[i] == wire[i + 1] {
    }
    if wire[0].Output? && wire[0].end - |wire[0].data| == applied {
      forall i | 0 <= i < |lost| && lost[i].Output? ensures wire[0].end <= lost[i].end - |lost[i].data| {
        assert Apart(wire[0], lost[i]);
      }
    }
  }

  lemma {:induction false} DeliveryFlow(s: System)
    requires FlowTracked(s) && Flowing(s) && s.conn.wire != []
    ensures Flowing(Delivered(s)) ==> Flows(Delivered(s))
  {
    hide PacketsOk;
    var m := s.conn.wire[0];
    var t := Delivered(s);
    assert KeepsVt(m) by { KeptHead(s.conn.wire, s.conn.lost, Issued(s.conn, s.server.Offset()), s.client.applied); }
    PacketTaken(s.conn.wire, s.conn.lost, Issued(s.conn, s.server.Offset()), s.client.applied);
    if t.client.open {
      Replies(s, m);
      if t.client.up != s.client.up {
        AckChainAppend(s.client.up, s.conn.acked, s.client.applied, t.client.up[|s.client.up|]);
      }
    }
  }

  lemma {:induction false} KeptHead(wire: seq<Down>, lost: seq<Down>, issued: nat, applied: nat)
    requires PacketsOk(wire, lost, issued, applied) && wire != []
    ensures KeepsVt(wire[0]) && OutputWithin(wire[0], issued)
  {
  }

  /** What a VT client makes of one packet: it moves on only by output that starts where it stands. */
  lemma {:induction false} Replies(s: System, m: Down)
    requires FlowTracked(s) && Flowing(s) && s.conn.wire != [] && m == s.conn.wire[0] && KeepsVt(m)
    requires s.client.Receive(m).open
    ensures var c := s.client.Receive(m);
            && c.mode == Vt
            && c.applied == (if m.Output? && m.end - |m.data| == s.client.applied then m.end else s.client.applied)
            && (c.up == s.client.up
                || exists r: Up :: c.up == s.client.up + [r]
                                   && (if r.OutputAck? then m.Output? && r.offset == c.applied > s.client.applied
                                       else c.applied == s.client.applied))
  {
    hide FlowOk;
    assert WelcomeOk(m, s);
    assert OutputWithin(m, Issued(s.conn, s.server.Offset())) by {
      assert FlowOk(s.conn, s.server.bytes, s.config, s.hello.resume, s.client.applied);
      WithinOf(s.conn, s.server.bytes, s.config, s.hello.resume, s.client.applied);
    }
    var c := s.client.Receive(m);
    if c.up != s.client.up {
      var r := c.up[|s.client.up|];
      assert c.up == s.client.up + [r];
    }
  }

  lemma {:induction false} WithinOf(c: Conn, shown: seq<Byte>, config: Config, resume: nat, applied: nat)
    requires FlowOk(c, shown, config, resume, applied) && c.wire != []
    ensures OutputWithin(c.wire[0], Issued(c, |shown|))
  {
  }

  lemma {:induction false} HandleUpFlow(s: System)
    requires FlowTracked(s) && Flowing(s) && s.client.up != []
    ensures Flowing(Step(s, ServerReceive)) ==> Flows(Step(s, ServerReceive))
  {
    hide Conn.OnOutputAck;
    hide Conn.SwitchToGrid;
    var m := s.client.up[0];
    var t := Step(s, ServerReceive);
    match m
    case OutputAck(offset) =>
      AckChainBound(s.client.up[1..], offset, s.client.applied);
      AckFlow(s.conn, offset, s.server.exit, s.server.grid, s.server.bytes, s.config, s.hello.resume,
              s.client.applied);
    case Resync => if s.server.grid.Some? { SwitchIsSemantic(s.conn, s.server.grid.value); }
    case _ =>
  }

  // ----- Steps and runs -----

  lemma {:induction false} ExitFlowTracked(s: System)
    requires FlowTracked(s) && !s.server.resizing && s.server.exit.None?
    ensures FlowTracked(Step(s, PublishExit))
  {
    hide Conn.MaybeSendExit;
    ExitTracked(s);
    var exit := Some(s.server.Offset());
    if Flowing(s) {
      ExitFlow(s.conn, exit, s.server.grid, s.server.bytes, s.config, s.hello.resume, s.client.applied);
      ExitMade(s.conn, exit, s.server.grid, s.server.bytes, s.config, s.hello.resume);
    } else if !s.conn.initialized {
      ExitBeforeHello(s.conn, exit, s.server.grid);
    }
  }

  lemma {:induction false} ExitBeforeHello(c: Conn, exit: Option<nat>, grid: Option<Grid>)
    requires !c.initialized
    ensures c.MaybeSendExit(exit, grid) == c
  {
  }

  lemma {:induction false} NothingToFlush(c: Conn)
    requires c.pendingGrid.None?
    ensures c.Drain() == c.(blocked := false)
  {
  }

  lemma {:induction false} DrainFlow(s: System)
    requires FlowTracked(s) && s.conn.open
    ensures FlowTracked(Step(s, Drain))
  {
    hide Conn.Drain;
    hide PacketsOk;
    hide AckChain;
    hide Tiles;
    DrainTracked(s);
    var t := Step(s, Drain);
    if Flowing(s) || !s.conn.initialized {
      assert s.conn.pendingGrid.None?;
      NothingToFlush(s.conn);
    } else if Flowing(t) {
      FlowingBefore(s, t);
    }
  }

  lemma {:induction false} ReceiveFlow(s: System)
    requires FlowTracked(s) && s.client.open && s.conn.wire != []
    ensures FlowTracked(Step(s, ClientReceive))
  {
    hide Client.Receive;
    hide FlowOk;
    DeliveredTracked(s);
    var t := Step(s, ClientReceive);
    if s.conn.open && !s.conn.initialized {
      forall i | 0 <= i < |t.conn.wire| ensures t.conn.wire[i].Resized? {
        assert t.conn.wire[i] == s.conn.wire[i + 1];
      }
    } else if Flowing(t) {
      DeliveryFlow(s);
    }
  }

  lemma {:induction false} ServerReceiveFlow(s: System)
    requires FlowTracked(s) && s.conn.open && s.conn.initialized && s.client.up != []
    ensures FlowTracked(Step(s, ServerReceive))
  {
    hide HandleUp;
    hide FlowOk;
    ServerReceiveTracked(s);
    var t := Step(s, ServerReceive);
    if Flowing(t) {
      FlowingBefore(s, t);
      HandleUpFlow(s);
    }
  }

  lemma {:induction false} HelloFlowTracked(s: System)
    requires FlowTracked(s) && s.conn.open && !s.conn.initialized
    ensures FlowTracked(Step(s, ReceiveHello))
  {
    hide Conn.Initialize;
    hide FlowOk;
    HelloTracked(s);
    InitializeOrClose(s.conn, s.hello, TermsFor(s), s.config);
    if s.client.open { HelloFlow(s); }
  }

  lemma {:induction false} InitializeOrClose(c: Conn, hello: Hello, terms: Terms, config: Config)
    requires !c.initialized
    ensures var d := c.Initialize(hello, terms, config); d.open ==> d.initialized
  {
    hide Conn.Replay;
    hide Conn.MaybeSendExit;
    hide Conn.SendKeyframe;
  }

  /** A step that changes neither the connection, but for its room, nor what it is accounted against. */
  lemma {:induction false} StillFlows(s: System, t: System)
    requires FlowTracked(s) && VtTracked(t)
    requires t == s.(server := t.server, conn := s.conn.(room := t.conn.room))
    requires t.server.bytes == s.server.bytes && t.server.exit == s.server.exit
    ensures FlowTracked(t)
  {
    hide VtTracked;
    hide AckChain;
    hide Tiles;
    hide Contiguous;
  }

  lemma {:induction false} StepFlow(s: System, a: Action)
    requires FlowTracked(s)
    ensures FlowTracked(Step(s, a))
  {
    hide CommitOutput;
    hide CommitGrid;
    hide CommitUpdate;
    hide Conn.Drain;
    hide Conn.Initialize;
    hide Conn.MaybeSendExit;
    hide HandleUp;
    hide Client.Receive;
    hide FlushDeferred;
    hide AnnounceResize;
    hide Flows;
    hide Flowing;
    hide Untouched;
    StepTracked(s, a);
    match a
    case SetRoom(room) => StillFlows(s, Step(s, a));
    case ReceiveHello => if s.conn.open && !s.conn.initialized { HelloFlowTracked(s); }
    case PublishOutput(data) => PublishFlowTracked(s, a);
    case PublishGrid(state, size) => PublishFlowTracked(s, a);
    case PublishUpdate(update) => PublishFlowTracked(s, a);
    case ResizeBegin => StillFlows(s, Step(s, a));
    case ResizeEnd(cols, rows, succeeded) =>
      if s.server.resizing && ValidDimensions(cols, rows) {
        AnnounceFlow(s, cols, rows);
        FlushDeferredFlow(if succeeded then AnnounceResize(s, cols, rows) else s);
      }
    case PublishExit => if !s.server.resizing && s.server.exit.None? { ExitFlowTracked(s); }
    case Drain => if s.conn.open { DrainFlow(s); }
    case ClientReceive => if s.client.open && s.conn.wire != [] { ReceiveFlow(s); }
    case ServerReceive => if s.conn.open && s.conn.initialized && s.client.up != [] { ServerReceiveFlow(s); }
    case Disconnect => DisconnectFlow(s);
  }

  lemma {:induction false} DeferForm(s: System, a: Action)
    requires 1 <= s.config.wireChunk && s.server.resizing && (a.PublishOutput? || a.PublishGrid? || a.PublishUpdate?)
    ensures var t := Step(s, a);
            t == s.(server := t.server) && t.server.bytes == s.server.bytes && t.server.exit == s.server.exit
  {
  }

  lemma {:induction false} PublishFlowTracked(s: System, a: Action)
    requires FlowTracked(s) && 1 <= s.config.wireChunk && VtTracked(Step(s, a))
    requires (a.PublishOutput? || a.PublishGrid? || a.PublishUpdate?)
    ensures FlowTracked(Step(s, a))
  {
    hide CommitOutput;
    hide CommitGrid;
    hide CommitUpdate;
    hide FlowTracked;
    if s.server.resizing {
      DeferForm(s, a);
      StillFlows(s, Step(s, a));
    } else if MayPublish(s) {
      match a
      case PublishOutput(data) => CommitOutputFlow(s, data);
      case PublishGrid(state, size) => CommitGridFlow(s, state);
      case PublishUpdate(update) => CommitUpdateFlow(s, update);
    }
  }

  lemma {:induction false} DisconnectFlow(s: System)
    requires 1 <= s.config.wireChunk
    ensures !Flowing(Step(s, Disconnect)) && !Step(s, Disconnect).conn.open
  {
  }

  lemma {:induction false} RunFlow(s: System, actions: seq<Action>)
    requires FlowTracked(s)
    ensures FlowTracked(Run(s, actions))
    decreases |actions|
  {
    hide Step;
    if actions != [] {
      StepFlow(s, actions[0]);
      RunFlow(Step(s, actions[0]), actions[1..]);
    }
  }

  lemma {:induction false} InitialFlow(s: System)
    requires Initial(s) && s.resizesBefore <= |s.server.resizes|
    ensures FlowTracked(s)
  {
    InitialTracked(s);
  }

  // ----- What this means -----

  /** The output carried by `ms`, in order. */
  function Payload(ms: seq<Down>): seq<Byte> {
    if ms == [] then [] else (if ms[0].Output? then ms[0].data else []) + Payload(ms[1..])
  }

  function Queued(chunks: seq<Chunk>): seq<Byte> {
    Flatten(seq(|chunks|, i requires 0 <= i < |chunks| => chunks[i].data))
  }

  lemma {:induction false} ContiguousPayload(ms: seq<Down>, from: nat, to: nat, bytes: seq<Byte>)
    requires Contiguous(ms, from, to) && to <= |bytes|
    requires forall i :: 0 <= i < |ms| ==> Honest(ms[i], bytes)
    ensures from <= to && Payload(ms) == bytes[from..to]
    decreases |ms|
  {
    if ms != [] {
      forall i | 0 <= i < |ms[1..]| ensures Honest(ms[1..][i], bytes) {
        assert ms[1..][i] == ms[i + 1];
      }
      if ms[0].Output? {
        assert Honest(ms[0], bytes);
        ContiguousPayload(ms[1..], ms[0].end, to, bytes);
        assert bytes[from..to] == bytes[from..ms[0].end] + bytes[ms[0].end..to];
      } else {
        ContiguousPayload(ms[1..], from, to, bytes);
      }
    }
  }

  lemma {:induction false} WithinShown(c: Conn, shown: seq<Byte>, config: Config, resume: nat, applied: nat)
    requires FlowOk(c, shown, config, resume, applied)
    ensures resume <= c.acked && applied <= |shown|
  {
    TilesFlatten(c.pendingVt, shown, Issued(c, |shown|), config.wireChunk);
  }

  lemma {:induction false} FlowingBytes(s: System)
    requires FlowTracked(s) && Flowing(s)
    ensures s.hello.resume <= s.client.applied <= s.server.Offset()
    ensures s.client.bytes == s.server.bytes[s.hello.resume..s.client.applied]
    ensures forall i :: 0 <= i < |s.conn.wire| ==> Honest(s.conn.wire[i], s.server.bytes)
    ensures FlowOk(s.conn, s.server.bytes, s.config, s.hello.resume, s.client.applied)
    ensures AckChain(s.client.up, s.conn.acked, s.client.applied)
  {
    WithinShown(s.conn, s.server.bytes, s.config, s.hello.resume, s.client.applied);
    AckChainBound(s.client.up, s.conn.acked, s.client.applied);
    hide FlowOk;
    hide AckChain;
    hide ServerOk;
    hide ResizesComing;
    hide ResizesDone;
    hide ResizesAccounted;
    if !s.client.ready {
      assert s.client == NewClient(s.hello.epoch, s.hello.resume);
      assert s.client.bytes == [] == s.server.bytes[s.hello.resume..s.hello.resume];
    }
  }

  lemma {:induction false} Cut(bytes: seq<Byte>, a: nat, b: nat, c: nat)
    requires a <= b <= c <= |bytes|
    ensures bytes[a..] == bytes[a..b] + bytes[b..c] + bytes[c..]
  {
  }

  /** What was applied, what is on the wire and what is queued are exactly the output since the resume
      offset, unless a packet was handed to a blocked stream. */
  lemma {:induction false} OutputConserved(s0: System, actions: seq<Action>)
    requires Initial(s0) && s0.resizesBefore <= |s0.server.resizes|
    ensures var s := Run(s0, actions);
            Flowing(s) && !AnyOutput(s.conn.lost) ==>
              && s.hello.resume <= s.server.Offset()
              && s.client.bytes + Payload(s.conn.wire) + Queued(s.conn.pendingVt)
                 == s.server.bytes[s.hello.resume..]
  {
    InitialFlow(s0);
    RunFlow(s0, actions);
    var s := Run(s0, actions);
    hide Run;
    if Flowing(s) && !AnyOutput(s.conn.lost) {
      FlowingBytes(s);
      hide FlowTracked;
      hide AnyOutput;
      var issued := Issued(s.conn, s.server.Offset());
      TilesFlatten(s.conn.pendingVt, s.server.bytes, issued, s.config.wireChunk);
      ContiguousPayload(s.conn.wire, s.client.applied, issued, s.server.bytes);
      Cut(s.server.bytes, s.hello.resume, s.client.applied, issued);
    }
  }

  /** Output in flight never exceeds the negotiated credit, the queue holds all committed output not yet
      sent, within the buffer limit, and the process is paused exactly while a writer's queue is not empty. */
  lemma {:induction false} CreditBounded(s0: System, actions: seq<Action>)
    requires Initial(s0) && s0.resizesBefore <= |s0.server.resizes|
    ensures var s := Run(s0, actions);
            Flowing(s) ==>
              var issued := Issued(s.conn, s.server.Offset());
              && s.hello.resume <= s.conn.acked <= s.client.applied <= issued <= s.server.Offset()
              && issued - s.conn.acked <= s.conn.credit
              && issued == Max(s.hello.resume, s.conn.maxSent)
              && Queued(s.conn.pendingVt) == s.server.bytes[issued..]
              && |s.server.bytes[issued..]| <= s.config.maxBuffered
              && (s.conn.pendingVt != [] ==> s.conn.acked < issued)
              && (s.conn.paused <==> s.conn.mayWrite && s.conn.pendingVt != [])
  {
    InitialFlow(s0);
    RunFlow(s0, actions);
    var s := Run(s0, actions);
    if Flowing(s) {
      AckChainBound(s.client.up, s.conn.acked, s.client.applied);
      TilesFlatten(s.conn.pendingVt, s.server.bytes, Issued(s.conn, s.server.Offset()), s.config.wireChunk);
    }
  }

  /** A queue is never stuck: some output is still on its way, or its acknowledgement is, unless an
      output packet was handed to a blocked stream. */
  lemma {:induction false} NeverStuck(s0: System, actions: seq<Action>)
    requires Initial(s0) && s0.resizesBefore <= |s0.server.resizes|
    ensures var s := Run(s0, actions);
            Flowing(s) && s.conn.pendingVt != [] && !AnyOutput(s.conn.lost) ==>
              AnyOutput(s.conn.wire) || exists i :: 0 <= i < |s.client.up| && s.client.up[i].OutputAck?
  {
    InitialFlow(s0);
    RunFlow(s0, actions);
    var s := Run(s0, actions);
    if Flowing(s) && s.conn.pendingVt != [] && !AnyOutput(s.conn.lost) {
      if !AnyOutput(s.conn.wire) {
        NoOutputContiguous(s.conn.wire, s.client.applied);
        ContiguousEnd(s.conn.wire, s.client.applied, s.client.applied, Issued(s.conn, s.server.Offset()));
        AnAckExists(s.client.up, s.conn.acked, s.client.applied);
      }
    }
  }

  lemma {:induction false} ContiguousEnd(ms: seq<Down>, from: nat, a: nat, b: nat)
    requires Contiguous(ms, from, a) && Contiguous(ms, from, b)
    ensures a == b
    decreases |ms|
  {
    if ms != [] { ContiguousEnd(ms[1..], if ms[0].Output? then ms[0].end else from, a, b); }
  }

  lemma {:induction false} AnAckExists(ms: seq<Up>, from: nat, to: nat)
    requires AckChain(ms, from, to) && from < to
    ensures exists i :: 0 <= i < |ms| && ms[i].OutputAck?
    decreases |ms|
  {
    if !ms[0].OutputAck? {
      AnAckExists(ms[1..], from, to);
      var i :| 0 <= i < |ms[1..]| && ms[1..][i].OutputAck?;
      assert ms[i + 1].OutputAck?;
    }
  }

  lemma {:induction false} AckIsAccepted(s: System)
    requires FlowTracked(s) && Flowing(s) && s.client.up != [] && s.client.up[0].OutputAck?
    ensures s.conn.acked < s.client.up[0].offset == Step(s, ServerReceive).conn.acked
    ensures Flowing(Step(s, ServerReceive))
  {
    FlowingBytes(s);
    hide FlowTracked;
    hide Conn.OnOutputAck;
    var offset := s.client.up[0].offset;
    AckChainBound(s.client.up[1..], offset, s.client.applied);
    AckFlow(s.conn, offset, s.server.exit, s.server.grid, s.server.bytes, s.config, s.hello.resume,
            s.client.applied);
  }

  /** The server never refuses an acknowledgement this client sends, and each one frees credit. */
  lemma {:induction false} AcksAreAccepted(s0: System, actions: seq<Action>)
    requires Initial(s0) && s0.resizesBefore <= |s0.server.resizes|
    ensures var s := Run(s0, actions);
            Flowing(s) && s.client.up != [] && s.client.up[0].OutputAck? ==>
              && s.conn.acked < s.client.up[0].offset == Step(s, ServerReceive).conn.acked
              && Flowing(Step(s, ServerReceive))
  {
    hide Step;
    hide FlowTracked;
    hide Flowing;
    InitialFlow(s0);
    RunFlow(s0, actions);
    var s := Run(s0, actions);
    if Flowing(s) && s.client.up != [] && s.client.up[0].OutputAck? {
      AckIsAccepted(s);
    }
  }

  /** Once the process has exited, a VT-only client is handed the exit exactly when its queue is empty and
      some output was sent to it: one that resumed at the end of a nonempty output never is. */
  lemma {:induction false} ExitIsSentIff(s0: System, actions: seq<Action>)
    requires Initial(s0) && s0.resizesBefore <= |s0.server.resizes|
    ensures var s := Run(s0, actions);
            Flowing(s) && s.server.exit.Some? ==>
              (s.conn.exitSent
               <==> s.conn.pendingVt == [] && (s.hello.resume < s.server.Offset() || s.server.Offset() == 0))
  {
    InitialFlow(s0);
    RunFlow(s0, actions);
    var s := Run(s0, actions);
    if Flowing(s) && s.server.exit.Some? {
      FlowingBytes(s);
      assert s.server.exit.value == s.server.Offset();
      hide FlowTracked;
      hide PacketsOk;
      hide Tiles;
    }
  }

  /** Once both channels are empty the client has applied all committed output, and nothing is queued,
      exactly when no output packet was handed to a blocked stream. */
  lemma {:induction false} CaughtUpIff(s0: System, actions: seq<Action>)
    requires Initial(s0) && s0.resizesBefore <= |s0.server.resizes|
    ensures var s := Run(s0, actions);
            Flowing(s) && s.conn.wire == [] && s.client.up == [] ==>
              (s.client.applied == s.server.Offset() && s.conn.pendingVt == [] <==> !AnyOutput(s.conn.lost))
  {
    InitialFlow(s0);
    RunFlow(s0, actions);
    var s := Run(s0, actions);
    if Flowing(s) && s.conn.wire == [] && s.client.up == [] && AnyOutput(s.conn.lost) {
      var i :| 0 <= i < |s.conn.lost| && s.conn.lost[i].Output?;
      assert OutputWithin(s.conn.lost[i], Issued(s.conn, s.server.Offset()));
    }
  }
}
