/**
 * Semantic-grid mode: one grid in flight at a time, every patch applies to the grid the client holds,
 * and a quiet connection has converged exactly when no grid packet was handed to a blocked stream.
 */
module TerminalGrid {
  import opened Basics
  import opened Grids
  import opened TerminalState
  import opened TerminalSystem

  predicate CarriesGrid(m: Down) { m.Keyframe? || m.GridPatch? }

  function GridPackets(ms: seq<Down>): seq<Down> {
    if ms == [] then [] else (if CarriesGrid(ms[0]) then [ms[0]] else []) + GridPackets(ms[1..])
  }

  lemma {:induction false} GridPacketsConcat(a: seq<Down>, b: seq<Down>)
    ensures GridPackets(a + b) == GridPackets(a) + GridPackets(b)
  {
    if a == [] {
      assert a + b == b;
    } else {
      var head := if CarriesGrid(a[0]) then [a[0]] else [];
      GridPacketsConcat(a[1..], b);
      assert (a + b)[0] == a[0] && (a + b)[1..] == a[1..] + b;
      Associative(head, GridPackets(a[1..]), GridPackets(b));
    }
  }

  /** The grid revisions acknowledged in `ms`, oldest first. */
  function GridAcks(ms: seq<Up>): seq<nat> {
    if ms == [] then [] else (if ms[0].GridAck? then [ms[0].revision] else []) + GridAcks(ms[1..])
  }

  lemma {:induction false} GridAcksConcat(a: seq<Up>, b: seq<Up>)
    ensures GridAcks(a + b) == GridAcks(a) + GridAcks(b)
  {
    if a == [] {
      assert a + b == b;
    } else {
      var head := if a[0].GridAck? then [a[0].revision] else [];
      GridAcksConcat(a[1..], b);
      assert (a + b)[0] == a[0] && (a + b)[1..] == a[1..] + b;
      Associative(head, GridAcks(a[1..]), GridAcks(b));
    }
  }

  /** What the client will hold after `m`, starting from `held`. */
  predicate Delivers(m: Down, held: Option<Grid>, g: Grid) {
    match m
    case Keyframe(k) => k == g
    case GridPatch(p) =>
      held.Some? && held.value.revision == p.baseRevision && Apply(held.value, p) == Some(g)
    case _ => false
  }

  /** The part of a connection that concerns grids; `sent` and `lost` are its grid packets. */
  datatype GridView = GridView(
    initialized: bool,
    mode: Mode,
    blocked: bool,
    acked: Option<Grid>,
    inFlight: Option<Grid>,
    pending: Option<Grid>,
    sent: seq<Down>,
    lost: seq<Down>)

  function View(c: Conn): GridView {
    GridView(c.initialized, c.mode, c.blocked, c.gridAcked, c.gridInFlight, c.pendingGrid,
             GridPackets(c.wire), GridPackets(c.lost))
  }

  /** What the client holds and has acknowledged, and the server's current grid. */
  datatype Ends = Ends(held: Option<Grid>, acks: seq<nat>, grid: Option<Grid>, revision: nat)

  predicate NoGridYet(v: GridView, e: Ends) {
    && v.inFlight.None? && v.pending.None? && v.acked.None? && e.held.None?
    && v.sent == [] && v.lost == [] && e.acks == []
  }

  /** The in-flight grid is exactly one of: on the wire, at the client and acknowledged, or lost. */
  predicate InFlightOnce(v: GridView, e: Ends) {
    if v.inFlight.None? then
      v.sent == [] && v.lost == [] && e.acks == [] && e.held == v.acked
    else
      var g := v.inFlight.value;
      && |v.sent| + |v.lost| + |e.acks| == 1
      && (v.acked.Some? ==> v.acked.value.revision <= g.revision)
      && (|e.acks| == 1 ==> e.acks[0] == g.revision && e.held == Some(g))
      && (|e.acks| == 0 ==> e.held == v.acked)
      && (|v.sent| == 1 ==> Delivers(v.sent[0], e.held, g))
      && (|v.lost| == 1 ==> Delivers(v.lost[0], e.held, g))
  }

  /** An earlier grid of the server, or the current one. */
  predicate Bounded(g: Option<Grid>, e: Ends) {
    g.Some? ==> g.value.revision <= e.revision && (g.value.revision == e.revision ==> g == e.grid)
  }

  predicate RevisionsBounded(v: GridView, e: Ends) { Bounded(v.acked, e) && Bounded(v.inFlight, e) }

  /** With nothing queued, the newest grid handed to the stream or acknowledged is the current one. */
  predicate Newest(v: GridView, grid: Option<Grid>) {
    if v.pending.Some? then v.pending == grid
    else if v.inFlight.Some? then v.inFlight == grid
    else v.acked == grid
  }

  predicate Linked(v: GridView, e: Ends) {
    && (e.grid.Some? ==> e.grid.value.revision == e.revision)
    && RevisionsBounded(v, e)
    && InFlightOnce(v, e)
    && (if v.mode == Vt then NoGridYet(v, e)
        else v.initialized && Newest(v, e.grid) && (v.pending.Some? ==> v.blocked || v.inFlight.Some?))
  }

  /** `w` is `v` after other packets, which can only have filled the stream. */
  predicate OnlyBusier(v: GridView, w: GridView) {
    w == v.(blocked := w.blocked) && (v.blocked ==> w.blocked)
  }

  lemma {:induction false} BusierLinked(v: GridView, w: GridView, e: Ends)
    requires Linked(v, e) && OnlyBusier(v, w)
    ensures Linked(w, e)
  {
  }

  /** Only what the stream holds differs. */
  predicate SameButSent(c: Conn, d: Conn) {
    d == c.(wire := d.wire, lost := d.lost, blocked := d.blocked, room := d.room)
  }

  lemma {:induction false} SendOther(c: Conn, m: Down)
    requires !CarriesGrid(m)
    ensures OnlyBusier(View(c), View(c.Send(m)))
    ensures SameButSent(c, c.Send(m))
  {
    GridPacketsConcat(c.wire, [m]);
    GridPacketsConcat(c.lost, [m]);
    assert GridPackets([m]) == [];
    assert GridPackets(c.wire) + [] == GridPackets(c.wire);
    assert GridPackets(c.lost) + [] == GridPackets(c.lost);
  }

  lemma {:induction false} QueueVtKeepsView(c: Conn, chunk: Chunk, limit: nat)
    ensures OnlyBusier(View(c), View(c.QueueVt(chunk, limit)))
    ensures c.QueueVt(chunk, limit).needsGrid == c.needsGrid
  {
    if c.pendingBytes + |chunk.data| > limit {
      FailKeepsView(c);
    }
  }

  lemma {:induction false} FailKeepsView(c: Conn)
    ensures OnlyBusier(View(c), View(c.Fail()))
    ensures c.Fail().needsGrid == c.needsGrid && c.Fail().mode == c.mode
    ensures c.Fail().pendingVt == c.pendingVt && c.Fail().initialized == c.initialized && !c.Fail().open
  {
    var d := c.Send(Failure);
    SendOther(c, Failure);
    assert View(d.Close()) == View(d);
  }

  lemma {:induction false} SendQueuedKeepsView(c: Conn)
    ensures OnlyBusier(View(c), View(c.SendQueued()))
    ensures c.SendQueued().open == c.open && c.SendQueued().needsGrid == c.needsGrid
    ensures c.pendingVt == [] ==> c.SendQueued().pendingVt == []
    decreases |c.pendingVt|
  {
    if c.pendingVt != [] && c.pendingVt[0].End() - c.acked <= c.credit {
      var next := c.pendingVt[0];
      var d := c.(pendingVt := c.pendingVt[1..], pendingBytes := c.pendingBytes - |next.data|);
      SendOther(d, Output(next.End(), next.data));
      SendQueuedKeepsView(d.SendOutput(next));
    }
  }

  /** Sending one grid packet while none is in flight puts it in flight. */
  lemma {:induction false} SendGridPacket(c: Conn, m: Down, g: Grid, e: Ends)
    requires c.open && CarriesGrid(m) && c.gridInFlight.None?
    requires InFlightOnce(View(c), e)
    requires Delivers(m, e.held, g)
    requires c.gridAcked.Some? ==> c.gridAcked.value.revision <= g.revision
    ensures InFlightOnce(View(c.Send(m).(gridInFlight := Some(g))), e)
  {
    GridPacketsConcat(c.wire, [m]);
    GridPacketsConcat(c.lost, [m]);
    assert GridPackets([m]) == [m];
  }

  /** A keyframe of the current grid, sent while nothing is in flight. */
  lemma {:induction false} KeyframeLinked(c: Conn, g: Grid, e: Ends)
    requires c.open && c.initialized && c.mode == Semantic && c.gridInFlight.None?
    requires InFlightOnce(View(c), e) && RevisionsBounded(View(c), e)
    requires e.grid == Some(g) && e.revision == g.revision
    requires c.pendingGrid.Some? ==> c.pendingGrid == Some(g)
    ensures Linked(View(c.SendKeyframe(g)), e)
    ensures c.SendKeyframe(g).open && (AsksInVt(c) ==> AsksInVt(c.SendKeyframe(g)))
  {
    hide GridPackets;
    SendGridPacket(c, Keyframe(g), g, e);
  }

  /** Only an initialized connection in VT mode asks for a grid or queues output. */
  predicate AsksInVt(c: Conn) {
    c.mode == Semantic || !c.initialized ==> c.needsGrid.None? && c.pendingVt == []
  }

  lemma {:induction false} SwitchLinked(c: Conn, g: Grid, e: Ends, f: Ends)
    requires c.open && c.initialized
    requires Linked(View(c), e)
    requires f == e.(grid := Some(g), revision := g.revision)
    requires f == e || (e.revision < g.revision && (c.mode == Vt || c.gridInFlight.Some?))
    ensures Linked(View(c.SwitchToGrid(g)), f)
    ensures AsksInVt(c.SwitchToGrid(g)) && c.SwitchToGrid(g).open
  {
    hide GridPackets;
    hide Conn.Send;
    hide Conn.SendKeyframe;
    hide Delivers;
    var c1 := if c.gridInFlight.Some? then c.(pendingGrid := Some(g)) else c;
    var c2 := c1.(mode := Semantic, needsGrid := None, pendingVt := [], pendingBytes := 0).SetFlowPaused(false);
    SendOther(c2, ModeSwitch);
    if c.gridInFlight.None? {
      KeyframeLinked(c2.Send(ModeSwitch), g, f);
    }
  }

  /** A patch is based on the grid the client acknowledged and rebuilds the new one. */
  lemma {:induction false} PatchLinked(c: Conn, patch: Patch, next: Grid, e: Ends)
    requires c.open && c.initialized && c.mode == Semantic && c.gridInFlight.None? && c.pendingGrid.None?
    requires Linked(View(c), e) && c.gridAcked.Some? && Diff(c.gridAcked.value, next) == Some(patch)
    requires next.revision == e.revision + 1
    ensures var d := c.Send(GridPatch(patch)).(gridInFlight := Some(next));
            Linked(View(d), e.(grid := Some(next), revision := next.revision)) && SameButSent(c, d.(gridInFlight := None))
  {
    DiffThenApply(c.gridAcked.value, next);
    hide GridPackets;
    hide Diff;
    hide Apply;
    SendGridPacket(c, GridPatch(patch), next, e.(grid := Some(next), revision := next.revision));
  }

  lemma {:induction false} SendGridLinked(c: Conn, next: Grid, e: Ends)
    requires c.open && c.initialized && c.mode == Semantic && c.gridInFlight.None? && !c.blocked && AsksInVt(c)
    requires Linked(View(c), e)
    requires next.revision == e.revision + 1
    ensures Linked(View(c.SendGrid(e.grid, next)), e.(grid := Some(next), revision := next.revision))
    ensures AsksInVt(c.SendGrid(e.grid, next)) && c.SendGrid(e.grid, next).open
  {
    hide GridPackets;
    hide Conn.Send;
    hide Conn.SendKeyframe;
    hide Diff;
    var f := e.(grid := Some(next), revision := next.revision);
    KeyframeLinked(c, next, f);
    if c.gridAcked.Some? && Diff(c.gridAcked.value, next).Some? {
      PatchLinked(c, Diff(c.gridAcked.value, next).value, next, e);
    }
  }

  lemma {:induction false} PublishGridLinked(c: Conn, next: Grid, e: Ends)
    requires c.open && AsksInVt(c)
    requires Linked(View(c), e)
    requires next.revision == e.revision + 1
    ensures Linked(View(c.PublishGrid(e.grid, next)), e.(grid := Some(next), revision := next.revision))
    ensures AsksInVt(c.PublishGrid(e.grid, next)) && c.PublishGrid(e.grid, next).open
  {
    hide Conn.SwitchToGrid;
    hide Conn.SendGrid;
    hide GridPackets;
    hide Delivers;
    var f := e.(grid := Some(next), revision := next.revision);
    if !c.initialized {
    } else if c.needsGrid.Some? && c.gridCapable && next.covers >= c.needsGrid.value {
      SwitchLinked(c, next, e, f);
    } else if c.mode == Semantic && !c.blocked && c.gridInFlight.None? {
      SendGridLinked(c, next, e);
    }
  }

  lemma {:induction false} PublishOutputLinked(c: Conn, chunk: Chunk, limit: nat, e: Ends)
    requires c.open && AsksInVt(c)
    requires Linked(View(c), e)
    ensures Linked(View(c.PublishOutput(chunk, e.grid, limit)), e)
    ensures AsksInVt(c.PublishOutput(chunk, e.grid, limit))
    ensures c.PublishOutput(chunk, e.grid, limit).initialized == c.initialized
  {
    hide GridPackets;
    hide Delivers;
    hide Conn.Send;
    hide Conn.SwitchToGrid;
    hide Conn.QueueVt;
    var d := c.(needsGrid := Some(chunk.End()));
    if !c.initialized || c.mode != Vt {
    } else if c.needsGrid.Some? {
      QueueVtKeepsView(d, chunk, limit);
    } else if chunk.End() - c.acked > c.credit {
      if !c.gridCapable {
        QueueVtKeepsView(d, chunk, limit);
      } else if e.grid.Some? && e.grid.value.covers >= chunk.End() {
        SwitchLinked(d, e.grid.value, e, e);
      }
    } else {
      SendOther(c, Output(chunk.End(), chunk.data));
    }
  }

  lemma {:induction false} PublishAllLinked(c: Conn, chunks: seq<Chunk>, limit: nat, e: Ends)
    requires c.open && AsksInVt(c)
    requires Linked(View(c), e)
    ensures c.PublishAll(chunks, e.grid, limit).open ==>
              Linked(View(c.PublishAll(chunks, e.grid, limit)), e)
              && AsksInVt(c.PublishAll(chunks, e.grid, limit))
              && c.PublishAll(chunks, e.grid, limit).initialized == c.initialized
    decreases |chunks|
  {
    if chunks != [] {
      PublishOutputLinked(c, chunks[0], limit, e);
      var d := c.PublishOutput(chunks[0], e.grid, limit);
      if d.open {
        PublishAllLinked(d, chunks[1..], limit, e);
      }
    }
  }

  lemma {:induction false} OtherLinked(c: Conn, m: Down, e: Ends)
    requires Linked(View(c), e) && !CarriesGrid(m)
    ensures Linked(View(c.Send(m)), e) && SameButSent(c, c.Send(m))
  {
    SendOther(c, m);
    hide Conn.Send;
    hide GridPackets;
    BusierLinked(View(c), View(c.Send(m)), e);
  }

  lemma {:induction false} ExitLinked(c: Conn, exit: Option<nat>, e: Ends)
    requires c.open && AsksInVt(c)
    requires Linked(View(c), e)
    ensures Linked(View(c.MaybeSendExit(exit, e.grid)), e)
    ensures AsksInVt(c.MaybeSendExit(exit, e.grid)) && c.MaybeSendExit(exit, e.grid).open
  {
    hide GridPackets;
    hide Delivers;
    hide Conn.Send;
    hide Conn.SendKeyframe;
    if exit.Some? && c.initialized {
      OtherLinked(c, Exit(exit.value), e);
      if c.mode == Semantic && e.grid.Some? && c.gridInFlight.None? {
        KeyframeLinked(c, e.grid.value, e);
      }
    }
  }

  lemma {:induction false} FlushPendingVtLinked(c: Conn, e: Ends)
    requires c.open && AsksInVt(c)
    requires Linked(View(c), e)
    ensures Linked(View(c.FlushPendingVt()), e)
    ensures AsksInVt(c.FlushPendingVt()) && c.FlushPendingVt().open
  {
    SendQueuedKeepsView(c);
    hide Conn.SendQueued;
    hide GridPackets;
    BusierLinked(View(c), View(c.SendQueued()), e);
  }

  lemma {:induction false} OutputAckLinked(c: Conn, offset: nat, exit: Option<nat>, e: Ends)
    requires c.open && AsksInVt(c)
    requires Linked(View(c), e)
    ensures c.OnOutputAck(offset, exit, e.grid).open ==>
              Linked(View(c.OnOutputAck(offset, exit, e.grid)), e)
              && AsksInVt(c.OnOutputAck(offset, exit, e.grid))
  {
    FailKeepsView(c);
    hide Conn.Fail;
    hide Conn.FlushPendingVt;
    hide Conn.MaybeSendExit;
    hide GridPackets;
    hide Linked;
    if c.acked <= offset <= c.maxSent {
      var a := c.(acked := offset);
      assert View(a) == View(c);
      FlushPendingVtLinked(a, e);
      ExitLinked(a.FlushPendingVt(), exit, e);
    }
  }

  lemma {:induction false} FlushGridLinked(c: Conn, e: Ends)
    requires c.open && AsksInVt(c)
    requires e.grid.Some? ==> e.grid.value.revision == e.revision
    requires RevisionsBounded(View(c), e) && InFlightOnce(View(c), e)
    requires if c.mode == Vt then NoGridYet(View(c), e) else c.initialized && Newest(View(c), e.grid)
    ensures Linked(View(c.FlushGrid()), e)
    ensures AsksInVt(c.FlushGrid()) && c.FlushGrid().open
  {
    if c.pendingGrid.Some? && !c.blocked && c.gridInFlight.None? {
      KeyframeLinked(c.(pendingGrid := None), c.pendingGrid.value, e);
    }
  }

  lemma {:induction false} GridAckLinked(c: Conn, ack: nat, rest: seq<nat>, exit: Option<nat>, e: Ends)
    requires c.open && AsksInVt(c)
    requires e.acks == [ack] + rest
    requires Linked(View(c), e)
    ensures Linked(View(c.OnGridAck(ack, exit, e.grid)), e.(acks := rest))
    ensures AsksInVt(c.OnGridAck(ack, exit, e.grid)) && c.OnGridAck(ack, exit, e.grid).open
  {
    var d := c.(gridAcked := c.gridInFlight, gridInFlight := None);
    FlushGridLinked(d, e.(acks := rest));
    ExitLinked(d.FlushGrid(), exit, e.(acks := rest));
  }

  lemma {:induction false} InitializeLinked(c: Conn, hello: Hello, terms: Terms, config: Config, e: Ends)
    requires c.open && !c.initialized && AsksInVt(c)
    requires Linked(View(c), e) && e.grid == terms.grid
    ensures c.Initialize(hello, terms, config).open ==>
              Linked(View(c.Initialize(hello, terms, config)), e)
              && AsksInVt(c.Initialize(hello, terms, config))
  {
    var b := Negotiated(c, hello, terms, config);
    var replay := CanReplay(hello, terms, config);
    var m := Welcome(b.mode, terms.resizeRevision, config.epoch);
    if hello.credit >= config.wireChunk && (replay || hello.grid) {
      SendOther(b, m);
      var d := b.Send(m).(initialized := true);
      if replay {
        ReplayLinked(d, terms, config, e);
      } else if terms.grid.Some? && terms.grid.value.covers >= terms.offset {
        KeyframeLinked(d, terms.grid.value, e);
        ExitLinked(d.SendKeyframe(terms.grid.value), terms.exit, e);
      }
    }
  }

  function Negotiated(c: Conn, hello: Hello, terms: Terms, config: Config): Conn {
    var replay := CanReplay(hello, terms, config);
    c.(gridCapable := hello.grid, credit := Min(hello.credit, config.maxUnacknowledged))
     .(mode := if replay then Vt else Semantic, acked := if replay then hello.resume else 0)
  }

  lemma {:induction false} ReplayLinked(d: Conn, terms: Terms, config: Config, e: Ends)
    requires d.open && d.initialized && AsksInVt(d)
    requires Linked(View(d), e) && e.grid == terms.grid
    ensures d.Replay(terms, config).open ==>
              Linked(View(d.Replay(terms, config)), e) && AsksInVt(d.Replay(terms, config))
  {
    PublishAllLinked(d, terms.replay, config.maxBuffered, e);
    var f := d.PublishAll(terms.replay, terms.grid, config.maxBuffered);
    if f.open {
      if f.needsGrid.Some? && terms.grid.Some? && terms.grid.value.covers >= f.needsGrid.value {
        SwitchLinked(f, terms.grid.value, e, e);
        ExitLinked(f.SwitchToGrid(terms.grid.value), terms.exit, e);
      } else {
        ExitLinked(f, terms.exit, e);
      }
    }
  }
}
