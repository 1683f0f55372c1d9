/** Grid mode over whole runs of an attachment. */
module TerminalGridRuns {
  import opened Basics
  import opened Grids
  import opened TerminalState
  import opened TerminalSystem
  import opened TerminalGrid

  function EndsOf(s: System): Ends {
    Ends(s.client.grid, GridAcks(s.client.up), s.server.grid, s.server.gridRevision)
  }

  /** The invariant of an attachment both of whose ends are still open. */
  predicate Tracked(s: System) {
    s.conn.open && s.client.open ==>
      && Linked(View(s.conn), EndsOf(s))
      && AsksInVt(s.conn)
  }

  /** Committing server output never touches the grid or the client. */
  lemma {:induction false} CommitChunksKeepGrid(server: Server, chunks: seq<Chunk>, limit: nat)
    ensures CommitChunks(server, chunks, limit).grid == server.grid
    ensures CommitChunks(server, chunks, limit).gridRevision == server.gridRevision
    ensures CommitChunks(server, chunks, limit).exit == server.exit
    decreases |chunks|
  {
    if chunks != [] {
      CommitChunksKeepGrid(CommitChunk(server, chunks[0], limit), chunks[1..], limit);
    }
  }

  lemma {:induction false} PublishOutputBeforeHello(c: Conn, chunk: Chunk, grid: Option<Grid>, limit: nat)
    requires !c.initialized
    ensures c.PublishOutput(chunk, grid, limit) == c
  {
  }

  lemma {:induction false} PublishAllBeforeHello(c: Conn, chunks: seq<Chunk>, grid: Option<Grid>, limit: nat)
    requires !c.initialized
    ensures c.PublishAll(chunks, grid, limit) == c
    decreases |chunks|
  {
    if chunks != [] {
      PublishOutputBeforeHello(c, chunks[0], grid, limit);
      PublishAllBeforeHello(c, chunks[1..], grid, limit);
    }
  }

  lemma {:induction false} CommitOutputTracked(s: System, data: seq<Byte>)
    requires 1 <= s.config.wireChunk && Tracked(s)
    ensures Tracked(CommitOutput(s, data)) && CommitOutput(s, data).client == s.client
    ensures CommitOutput(s, data).server.exit == s.server.exit
  {
    var chunks := Split(s.server.Offset(), data, s.config.wireChunk);
    CommitChunksKeepGrid(s.server, chunks, s.config.maxReplay);
    if !s.conn.initialized {
      PublishAllBeforeHello(s.conn, chunks, s.server.grid, s.config.maxBuffered);
    } else if s.conn.open && s.client.open {
      PublishAllLinked(s.conn, chunks, s.config.maxBuffered, EndsOf(s));
    }
  }

  lemma {:induction false} CommitGridTracked(s: System, state: Grid)
    requires Tracked(s)
    ensures Tracked(CommitGrid(s, state)) && CommitGrid(s, state).client == s.client
    ensures CommitGrid(s, state).server.exit == s.server.exit
  {
    hide Conn.PublishGrid;
    var next := state.(revision := s.server.gridRevision + 1);
    if s.conn.open && s.client.open {
      PublishGridLinked(s.conn, next, EndsOf(s));
    }
  }

  lemma {:induction false} CommitUpdateTracked(s: System, update: Update)
    requires 1 <= s.config.wireChunk && Tracked(s)
    ensures Tracked(CommitUpdate(s, update)) && CommitUpdate(s, update).client == s.client
    ensures CommitUpdate(s, update).server.exit == s.server.exit
  {
    CommitOutputTracked(s, update.data);
    var t := CommitOutput(s, update.data);
    CommitGridTracked(t, update.state.(covers := t.server.Offset()));
  }

  lemma {:induction false} CommitOutputsTracked(s: System, outputs: seq<seq<Byte>>)
    requires 1 <= s.config.wireChunk && Tracked(s)
    ensures Tracked(CommitOutputs(s, outputs)) && CommitOutputs(s, outputs).client == s.client
    ensures CommitOutputs(s, outputs).server.exit == s.server.exit
    decreases |outputs|
  {
    if outputs != [] {
      CommitOutputTracked(s, outputs[0]);
      CommitOutputsTracked(CommitOutput(s, outputs[0]), outputs[1..]);
    }
  }

  lemma {:induction false} CommitUpdatesTracked(s: System, updates: seq<Update>)
    requires 1 <= s.config.wireChunk && Tracked(s)
    ensures Tracked(CommitUpdates(s, updates)) && CommitUpdates(s, updates).client == s.client
    ensures CommitUpdates(s, updates).server.exit == s.server.exit
    decreases |updates|
  {
    if updates != [] {
      CommitUpdateTracked(s, updates[0]);
      CommitUpdatesTracked(CommitUpdate(s, updates[0]), updates[1..]);
    }
  }

  lemma {:induction false} CommitGridsTracked(s: System, grids: seq<Grid>)
    requires Tracked(s)
    ensures Tracked(CommitGrids(s, grids)) && CommitGrids(s, grids).client == s.client
    ensures CommitGrids(s, grids).server.exit == s.server.exit
    decreases |grids|
  {
    if grids != [] {
      CommitGridTracked(s, grids[0]);
      CommitGridsTracked(CommitGrid(s, grids[0]), grids[1..]);
    }
  }

  lemma {:induction false} FlushDeferredTracked(s: System)
    requires 1 <= s.config.wireChunk && Tracked(s)
    ensures Tracked(FlushDeferred(s)) && FlushDeferred(s).client == s.client
    ensures FlushDeferred(s).server.exit == s.server.exit
  {
    var server := s.server;
    var cleared := s.(server := server.(resizing := false, deferredOutput := [], deferredUpdates := [],
                                        deferredGrids := [], deferredBytes := 0));
    assert Tracked(cleared);
    CommitOutputsTracked(cleared, server.deferredOutput);
    var t := CommitOutputs(cleared, server.deferredOutput);
    CommitUpdatesTracked(t, server.deferredUpdates);
    CommitGridsTracked(CommitUpdates(t, server.deferredUpdates), server.deferredGrids);
  }

  lemma {:induction false} AnnounceTracked(s: System, cols: nat, rows: nat)
    requires Tracked(s)
    ensures Tracked(AnnounceResize(s, cols, rows))
  {
    var resize := Resize(s.server.barrier, cols, rows, s.server.resizeRevision + 1);
    SendOther(s.conn, Resized(resize));
    BusierLinkedIfOpen(s, s.conn.Send(Resized(resize)));
  }

  lemma {:induction false} ResizeEndTracked(s: System, cols: nat, rows: nat, succeeded: bool)
    requires 1 <= s.config.wireChunk && Tracked(s)
    ensures Tracked(Step(s, ResizeEnd(cols, rows, succeeded)))
  {
    hide FlushDeferred;
    hide Tracked;
    AnnounceTracked(s, cols, rows);
    FlushDeferredTracked(if succeeded then AnnounceResize(s, cols, rows) else s);
  }

  lemma {:induction false} BusierLinkedIfOpen(s: System, c: Conn)
    requires Tracked(s) && OnlyBusier(View(s.conn), View(c))
    ensures s.conn.open && s.client.open ==> Linked(View(c), EndsOf(s))
  {
  }

  /** A grid packet applies to the grid the client holds and is acknowledged; it never asks for a resync. */
  lemma {:induction false} GridPacketApplies(c: Client, m: Down, g: Grid)
    requires CarriesGrid(m) && Delivers(m, c.grid, g)
    ensures c.Receive(m).open && c.open ==>
              c.Receive(m).grid == Some(g) && c.Receive(m).up == c.up + [GridAck(g.revision)]
  {
  }

  lemma {:induction false} ClientReceiveTracked(s: System)
    requires 1 <= s.config.wireChunk && Tracked(s)
    requires s.conn.open && s.client.open && s.conn.wire != []
    ensures Tracked(Step(s, ClientReceive))
    ensures CarriesGrid(s.conn.wire[0]) && s.client.Receive(s.conn.wire[0]).open ==>
              s.client.Receive(s.conn.wire[0]).grid == s.conn.gridInFlight
  {
    hide Client.Receive;
    var m := s.conn.wire[0];
    var v := View(s.conn);
    var d := s.conn.(wire := s.conn.wire[1..]);
    var after := s.client.Receive(m);
    assert v.sent == (if CarriesGrid(m) then [m] else []) + View(d).sent;
    if CarriesGrid(m) {
      assert v.sent[0] == m && View(d).sent == [];
      var g := s.conn.gridInFlight.value;
      GridPacketApplies(s.client, m, g);
      GridAcksConcat(s.client.up, [GridAck(g.revision)]);
      assert GridAcks([GridAck(g.revision)]) == [g.revision];
    } else {
      assert View(d).sent == v.sent;
      OtherReply(s.client, m);
    }
  }

  lemma {:induction false} OneReply(c: Client, m: Down)
    requires !CarriesGrid(m)
    ensures c.Receive(m).grid == c.grid
    ensures c.Receive(m).up == c.up
            || exists reply: Up :: !reply.GridAck? && c.Receive(m).up == c.up + [reply]
  {
    if c.Receive(m).up != c.up {
      var reply := match m
        case Welcome(_, revision, _) => ResizeApplied(revision)
        case Resized(r) => ResizeApplied(r.revision)
        case Output(end, data) => if end - |data| != c.applied then Resync else OutputAck(end)
        case _ => Resync;
      assert !reply.GridAck? && c.Receive(m).up == c.up + [reply];
    }
  }

  lemma {:induction false} OtherReply(c: Client, m: Down)
    requires !CarriesGrid(m)
    ensures GridAcks(c.Receive(m).up) == GridAcks(c.up) && c.Receive(m).grid == c.grid
  {
    OneReply(c, m);
    hide Client.Receive;
    if c.Receive(m).up != c.up {
      var reply: Up :| !reply.GridAck? && c.Receive(m).up == c.up + [reply];
      GridAcksConcat(c.up, [reply]);
      assert GridAcks([reply]) == [];
    }
  }

  lemma {:induction false} ResyncLinked(c: Conn, offset: nat, e: Ends)
    requires c.open && c.initialized && AsksInVt(c) && Linked(View(c), e)
    ensures c.OnResync(offset, e.grid).open ==>
              Linked(View(c.OnResync(offset, e.grid)), e) && AsksInVt(c.OnResync(offset, e.grid))
  {
    hide Conn.SwitchToGrid;
    if e.grid.Some? && e.grid.value.covers >= offset {
      SwitchLinked(c, e.grid.value, e, e);
    }
  }

  lemma {:induction false} HandleUpLinked(s: System, m: Up, rest: seq<nat>)
    requires s.conn.open && s.client.open && s.conn.initialized && Tracked(s)
    requires EndsOf(s).acks == (if m.GridAck? then [m.revision] else []) + rest
    ensures HandleUp(s, m).open ==>
              Linked(View(HandleUp(s, m)), EndsOf(s).(acks := rest)) && AsksInVt(HandleUp(s, m))
  {
    hide Conn.OnOutputAck;
    hide Conn.OnGridAck;
    hide Conn.OnResync;
    var e := EndsOf(s);
    assert !m.GridAck? ==> e == e.(acks := rest);
    match m
    case OutputAck(offset) => OutputAckLinked(s.conn, offset, s.server.exit, e);
    case GridAck(revision) => GridAckLinked(s.conn, revision, rest, s.server.exit, e);
    case Resync => ResyncLinked(s.conn, s.server.Offset(), e);
    case ResizeApplied(revision) =>
  }

  lemma {:induction false} ServerReceiveTracked(s: System)
    requires 1 <= s.config.wireChunk && Tracked(s)
    requires s.conn.open && s.client.open && s.conn.initialized && s.client.up != []
    ensures Tracked(Step(s, ServerReceive))
  {
    hide HandleUp;
    HandleUpLinked(s, s.client.up[0], GridAcks(s.client.up[1..]));
  }

  lemma {:induction false} StepTracked(s: System, a: Action)
    requires 1 <= s.config.wireChunk && Tracked(s)
    ensures Tracked(Step(s, a))
  {
    match a
    case SetRoom(room) =>
    case ReceiveHello =>
      if s.conn.open && !s.conn.initialized && s.client.open {
        InitializeLinked(s.conn, s.hello, TermsFor(s), s.config, EndsOf(s));
      }
    case PublishOutput(data) => if MayPublish(s) && !s.server.resizing { CommitOutputTracked(s, data); }
    case PublishGrid(state, size) => if MayPublish(s) && !s.server.resizing { CommitGridTracked(s, state); }
    case PublishUpdate(update) => if MayPublish(s) && !s.server.resizing { CommitUpdateTracked(s, update); }
    case ResizeBegin =>
    case ResizeEnd(cols, rows, succeeded) => ResizeEndTracked(s, cols, rows, succeeded);
    case PublishExit =>
      if s.conn.open && s.client.open { ExitLinked(s.conn, Some(s.server.Offset()), EndsOf(s)); }
    case Drain =>
      if s.conn.open && s.client.open { FlushGridLinked(s.conn.(blocked := false), EndsOf(s)); }
    case ClientReceive =>
      if s.client.open && s.conn.wire != [] && s.conn.open { ClientReceiveTracked(s); }
    case ServerReceive =>
      if s.conn.open && s.conn.initialized && s.client.up != [] && s.client.open { ServerReceiveTracked(s); }
    case Disconnect =>
  }

  lemma {:induction false} RunTracked(s: System, actions: seq<Action>)
    requires 1 <= s.config.wireChunk && Tracked(s)
    ensures Tracked(Run(s, actions))
    decreases |actions|
  {
    if actions != [] {
      StepTracked(s, actions[0]);
      RunTracked(Step(s, actions[0]), actions[1..]);
    }
  }

  lemma {:induction false} InitialTracked(s: System)
    requires Initial(s)
    ensures Tracked(s)
  {
    assert GridPackets(s.conn.wire) == [] && GridPackets(s.conn.lost) == [];
  }

  // ----- What this means for the client -----

  /** Reachable states: any run from any attachment to a server with a consistent history. */
  predicate Quiet(s: System) {
    s.conn.open && s.client.open && s.conn.wire == [] && s.client.up == [] && !s.conn.blocked
  }

  predicate LostGrid(s: System) { GridPackets(s.conn.lost) != [] }

  /** Once both channels are empty and the stream is unblocked, the client shows the server's grid exactly
      when no grid packet was handed to a blocked stream, or the revision it last acknowledged is still the
      server's. */
  lemma {:induction false} ConvergesIff(s0: System, actions: seq<Action>)
    requires Initial(s0)
    ensures var s := Run(s0, actions);
            Quiet(s) && s.conn.mode == Semantic ==>
              (s.client.grid == s.server.grid
               <==> !LostGrid(s)
                    || (s.conn.gridAcked.Some? && s.conn.gridAcked.value.revision == s.server.gridRevision))
  {
    InitialTracked(s0);
    RunTracked(s0, actions);
  }

  /** In grid mode with the stream free and nothing in flight, a new grid is sent as the rows that changed since
      the grid before it, and in full exactly when there is no such grid or its shape differs. */
  lemma {:induction false} NextGridIsPatched(s0: System, actions: seq<Action>, state: Grid)
    requires Initial(s0)
    ensures var s := Run(s0, actions);
            var next := state.(revision := s.server.gridRevision + 1);
            var t := CommitGrid(s, state);
            s.conn.open && s.client.open && s.conn.mode == Semantic && !s.conn.blocked && s.conn.gridInFlight.None? ==>
              t.conn.wire == s.conn.wire + [if s.server.grid.Some? && Diff(s.server.grid.value, next).Some?
                                            then GridPatch(Diff(s.server.grid.value, next).value) else Keyframe(next)]
              && t.conn.gridInFlight == Some(next)
  {
    InitialTracked(s0);
    RunTracked(s0, actions);
    hide Run;
    var s := Run(s0, actions);
    if s.conn.open && s.client.open && s.conn.mode == Semantic && !s.conn.blocked && s.conn.gridInFlight.None? {
      assert s.conn.initialized && s.conn.gridAcked == s.server.grid && s.conn.needsGrid.None?;
      hide Tracked;
    }
  }

  /** After a lost grid packet nothing changes what the client shows while the connection lasts. */
  lemma {:induction false} LostGridFreezesClient(s0: System, before: seq<Action>, a: Action)
    requires Initial(s0)
    ensures var s := Run(s0, before);
            var t := Step(s, a);
            s.conn.open && s.client.open && t.conn.open && t.client.open && LostGrid(s) ==>
              LostGrid(t) && t.client.grid == s.client.grid
  {
    InitialTracked(s0);
    RunTracked(s0, before);
    var s := Run(s0, before);
    StepTracked(s, a);
    GridPacketsPrefix(s.conn.lost, Step(s, a).conn.lost);
    if a.ClientReceive? && s.conn.wire != [] && s.client.open {
      if s.conn.open && LostGrid(s) { LostGridDelivers(s); }
    } else {
      OnlyDeliveryShows(s, a);
    }
  }

  lemma {:induction false} OnlyDeliveryShows(s: System, a: Action)
    requires 1 <= s.config.wireChunk
    requires !a.ClientReceive? || s.conn.wire == [] || !s.client.open
    ensures Step(s, a).client.grid == s.client.grid
  {
    hide Conn.Initialize;
    hide CommitOutput;
    hide CommitGrid;
    hide CommitUpdate;
    hide FlushDeferred;
    hide HandleUp;
    hide Client.Receive;
  }

  lemma {:induction false} LostGridDelivers(s: System)
    requires 1 <= s.config.wireChunk && Tracked(s)
    requires s.conn.open && s.client.open && s.conn.wire != [] && LostGrid(s)
    ensures Step(s, ClientReceive).client.grid == s.client.grid
  {
    hide Client.Receive;
    assert GridPackets(s.conn.wire) == [];
    OtherReply(s.client, s.conn.wire[0]);
  }

  lemma {:induction false} GridPacketsPrefix(a: seq<Down>, b: seq<Down>)
    requires a <= b
    ensures GridPackets(a) <= GridPackets(b)
  {
    GridPacketsConcat(a, b[|a|..]);
    assert b == a + b[|a|..];
  }

  /** Of the grids sent, at most one is unacknowledged, and a queued grid is the server's current one. */
  lemma {:induction false} OneGridInFlight(s0: System, actions: seq<Action>)
    requires Initial(s0)
    ensures var s := Run(s0, actions);
            s.conn.open && s.client.open ==>
              && |GridPackets(s.conn.wire)| + |GridPackets(s.conn.lost)| + |GridAcks(s.client.up)| <= 1
              && (s.conn.pendingGrid.Some? ==> s.conn.pendingGrid == s.server.grid)
              && (s.conn.gridInFlight.None? ==> s.client.grid == s.conn.gridAcked)
  {
    InitialTracked(s0);
    RunTracked(s0, actions);
  }

  /** Every patch the client is handed is based on the grid it holds and yields the grid in flight,
      and what the client shows never goes back to an earlier revision. */
  lemma {:induction false} PatchesApplyInOrder(s0: System, actions: seq<Action>)
    requires Initial(s0)
    ensures var s := Run(s0, actions);
            var t := Step(s, ClientReceive);
            s.conn.open && s.client.open && s.conn.wire != [] && CarriesGrid(s.conn.wire[0]) && t.client.open ==>
              && t.client.grid == s.conn.gridInFlight && t.client.grid.Some?
              && t.client.up == s.client.up + [GridAck(t.client.grid.value.revision)]
              && (s.client.grid.Some? ==> s.client.grid.value.revision <= t.client.grid.value.revision)
  {
    InitialTracked(s0);
    RunTracked(s0, actions);
    var s := Run(s0, actions);
    if s.conn.open && s.client.open && s.conn.wire != [] && CarriesGrid(s.conn.wire[0]) {
      var m := s.conn.wire[0];
      assert View(s.conn).sent[0] == m;
      GridPacketApplies(s.client, m, s.conn.gridInFlight.value);
    }
  }

  const EMPTY_GRID := Grid(80, 0, None, [], 1, [], 0, [], "", 0)
  const SMALL_CONFIG := Config("e", "f", 4, 4, 4, 4)

  /** A grid viewer attaching to a terminal that already shows a grid. */
  const GRID_VIEWER := System(
    SMALL_CONFIG,
    Hello(true, false, 4, None, None, "f", 0),
    0, 0,
    Server([], [], 0, Some(EMPTY_GRID), 1, false, 0, [], 0, None, [], [], [], 0),
    Attached(false, 0),
    NewClient(None, 0),
    0)

  /** Convergence fails: the welcome fills the stream, so the opening keyframe is dropped, and draining
      the stream later does not send it again. */
  lemma {:induction false} BlockedKeyframeIsNeverSeen()
    ensures Initial(GRID_VIEWER)
    ensures var s := Run(GRID_VIEWER, [ReceiveHello, Drain, ClientReceive, ServerReceive]);
            Quiet(s) && s.conn.mode == Semantic && LostGrid(s) && s.server.grid.Some? && s.client.grid.None?
  {
    assert GRID_VIEWER.conn == Attached(false, GRID_VIEWER.conn.room);
    KeyframeDropped();
    var s1 := Step(GRID_VIEWER, ReceiveHello);
    WelcomeAlone(s1);
    RunFour(GRID_VIEWER, ReceiveHello, Drain, ClientReceive, ServerReceive);
    assert GridPackets([Keyframe(EMPTY_GRID)]) == [Keyframe(EMPTY_GRID)];
  }

  const AFTER_WELCOME := Conn(true, true, Semantic, true, 0, true, false, 4, 0, 0, None, [], 0, false, None,
                              Some(EMPTY_GRID), None, false, [Welcome(Semantic, 0, "e")],
                              [Keyframe(EMPTY_GRID)])

  lemma {:induction false} WelcomeAlone(s: System)
    requires s.config == SMALL_CONFIG && s.conn == AFTER_WELCOME && s.client == NewClient(None, 0)
    ensures var t := Step(Step(Step(s, Drain), ClientReceive), ServerReceive);
            && t.conn == AFTER_WELCOME.(blocked := false, wire := [])
            && t.client.open && t.client.up == [] && t.client.grid.None?
            && t.server == s.server
  {
    var s2 := Step(s, Drain);
    assert s2 == s.(conn := AFTER_WELCOME.(blocked := false));
    var s3 := Step(s2, ClientReceive);
    assert s3.client.up == [ResizeApplied(0)];
  }

  lemma {:induction false} KeyframeDropped()
    ensures Step(GRID_VIEWER, ReceiveHello).conn == AFTER_WELCOME
    ensures Step(GRID_VIEWER, ReceiveHello).client == GRID_VIEWER.client
    ensures Step(GRID_VIEWER, ReceiveHello).server == GRID_VIEWER.server
  {
    var terms := TermsFor(GRID_VIEWER);
    var c := GRID_VIEWER.conn.(gridCapable := true, credit := 4).(mode := Semantic, acked := 0);
    var d := c.Send(Welcome(Semantic, 0, "e")).(initialized := true);
    assert d.wire == [Welcome(Semantic, 0, "e")] && d.blocked;
    var e := d.SendKeyframe(EMPTY_GRID);
    assert e.lost == [Keyframe(EMPTY_GRID)];
    assert e.MaybeSendExit(None, Some(EMPTY_GRID)) == e;
    assert GRID_VIEWER.conn.Initialize(GRID_VIEWER.hello, terms, SMALL_CONFIG) == e;
  }

  lemma {:induction false} RunFour(s: System, a: Action, b: Action, c: Action, d: Action)
    requires 1 <= s.config.wireChunk
    ensures Run(s, [a, b, c, d]) == Step(Step(Step(Step(s, a), b), c), d)
  {
    hide Step;
    var t := Step(s, a);
    assert [a, b, c, d][1..] == [b, c, d];
    assert [b, c, d][1..] == [c, d];
    assert [c, d][1..] == [d];
    assert [d][1..] == [];
    assert Run(s, [a, b, c, d]) == Run(t, [b, c, d]);
    assert Run(t, [b, c, d]) == Run(Step(t, b), [c, d]);
    assert Run(Step(t, b), [c, d]) == Run(Step(Step(t, b), c), [d]);
    assert Run(Step(Step(t, b), c), [d]) == Run(Step(Step(Step(t, b), c), d), []);
  }
}
