/**
 * What one connection operation may put on the wire: output packets that carry committed bytes, and
 * packets that are neither output, resize nor welcome.
 */
module TerminalVt {
  import opened Basics
  import opened Grids
  import opened TerminalState
  import opened TerminalSystem

  /** The packet's payload is the committed output that ends at its offset. */
  predicate Honest(m: Down, bytes: seq<Byte>) {
    m.Output? ==> |m.data| <= m.end <= |bytes| && bytes[m.end - |m.data|..m.end] == m.data
  }

  /** What has been committed: the output, and where it ended. */
  datatype Told = Told(bytes: seq<Byte>, exit: Option<nat>)

  function Known(server: Server): Told { Told(server.bytes, server.exit) }

  /** Honest, and an exit is the one the server recorded. */
  predicate Truthful(m: Down, told: Told) {
    Honest(m, told.bytes) && (m.Exit? ==> told.exit == Some(m.outputOffset))
  }

  predicate HonestChunk(c: Chunk, bytes: seq<Byte>) {
    c.End() <= |bytes| && bytes[c.start..c.End()] == c.data
  }

  predicate Plain(m: Down, told: Told) {
    Truthful(m, told) && !m.Resized? && !m.Welcome?
  }

  /** `d` only queued honest chunks, and sent or lost plain packets, since `c`. */
  predicate Says(c: Conn, d: Conn, told: Told) {
    && d.initialized == c.initialized
    && c.wire <= d.wire
    && c.lost <= d.lost
    && (forall i :: |c.wire| <= i < |d.wire| ==> Plain(d.wire[i], told))
    && (forall i :: |c.lost| <= i < |d.lost| ==> Plain(d.lost[i], told))
    && ((forall q :: q in c.pendingVt ==> HonestChunk(q, told.bytes)) ==>
          forall q :: q in d.pendingVt ==> HonestChunk(q, told.bytes))
  }

  lemma {:induction false} SaysThen(c: Conn, d: Conn, e: Conn, told: Told)
    requires Says(c, d, told) && Says(d, e, told)
    ensures Says(c, e, told)
  {
    forall i | |c.wire| <= i < |e.wire| ensures Plain(e.wire[i], told) {
      if i < |d.wire| { assert e.wire[i] == d.wire[i]; }
    }
    forall i | |c.lost| <= i < |e.lost| ensures Plain(e.lost[i], told) {
      if i < |d.lost| { assert e.lost[i] == d.lost[i]; }
    }
  }

  lemma {:induction false} SendSays(c: Conn, m: Down, told: Told)
    requires Plain(m, told)
    ensures Says(c, c.Send(m), told)
  {
  }

  lemma {:induction false} FailSays(c: Conn, told: Told)
    ensures Says(c, c.Fail(), told)
  {
    SendSays(c, Failure, told);
  }

  lemma {:induction false} SwitchSays(c: Conn, g: Grid, told: Told)
    ensures Says(c, c.SwitchToGrid(g), told)
  {
    var c1 := if c.gridInFlight.Some? then c.(pendingGrid := Some(g)) else c;
    var c2 := c1.(mode := Semantic, needsGrid := None, pendingVt := [], pendingBytes := 0).SetFlowPaused(false);
    SendSays(c2, ModeSwitch, told);
    SendSays(c2.Send(ModeSwitch), Keyframe(g), told);
    assert Says(c, c2, told);
    SaysThen(c, c2, c2.Send(ModeSwitch), told);
    SaysThen(c, c2.Send(ModeSwitch), c2.Send(ModeSwitch).SendKeyframe(g), told);
  }

  lemma {:induction false} SendGridSays(c: Conn, previous: Option<Grid>, next: Grid, told: Told)
    ensures Says(c, c.SendGrid(previous, next), told)
  {
    hide Conn.Send;
    SendSays(c, Keyframe(next), told);
    if c.gridAcked.Some? && Diff(c.gridAcked.value, next).Some? {
      SendSays(c, GridPatch(Diff(c.gridAcked.value, next).value), told);
    }
  }

  lemma {:induction false} PublishGridSays(c: Conn, previous: Option<Grid>, next: Grid, told: Told)
    ensures Says(c, c.PublishGrid(previous, next), told)
  {
    hide Conn.SwitchToGrid;
    hide Conn.SendGrid;
    SwitchSays(c, next, told);
    SendGridSays(c, previous, next, told);
  }

  lemma {:induction false} QueueSays(c: Conn, chunk: Chunk, limit: nat, told: Told)
    requires HonestChunk(chunk, told.bytes)
    ensures Says(c, c.QueueVt(chunk, limit), told)
  {
    hide Conn.Fail;
    FailSays(c, told);
  }

  lemma {:induction false} PublishOutputSays(c: Conn, chunk: Chunk, grid: Option<Grid>, limit: nat,
                                             told: Told)
    requires HonestChunk(chunk, told.bytes)
    ensures Says(c, c.PublishOutput(chunk, grid, limit), told)
  {
    hide Conn.SwitchToGrid;
    hide Conn.QueueVt;
    hide Conn.Send;
    var d := c.(needsGrid := Some(chunk.End()));
    assert Says(c, d, told);
    if !c.initialized || c.mode != Vt {
    } else if c.needsGrid.Some? {
      QueueSays(d, chunk, limit, told);
    } else if chunk.End() - c.acked > c.credit {
      QueueSays(d, chunk, limit, told);
      if grid.Some? { SwitchSays(d, grid.value, told); }
    } else {
      SendSays(c, Output(chunk.End(), chunk.data), told);
    }
  }

  lemma {:induction false} PublishAllSays(c: Conn, chunks: seq<Chunk>, grid: Option<Grid>, limit: nat,
                                          told: Told, from: nat, size: nat)
    requires Tiles(chunks, told.bytes, from, size)
    ensures Says(c, c.PublishAll(chunks, grid, limit), told)
    decreases |chunks|
  {
    hide Conn.PublishOutput;
    if chunks != [] {
      PublishOutputSays(c, chunks[0], grid, limit, told);
      var d := c.PublishOutput(chunks[0], grid, limit);
      PublishAllSays(d, chunks[1..], grid, limit, told, chunks[0].End(), size);
      SaysThen(c, d, c.PublishAll(chunks, grid, limit), told);
    }
  }

  lemma {:induction false} SendQueuedSays(c: Conn, told: Told)
    requires forall q :: q in c.pendingVt ==> HonestChunk(q, told.bytes)
    ensures Says(c, c.SendQueued(), told)
    decreases |c.pendingVt|
  {
    if c.pendingVt != [] && c.pendingVt[0].End() - c.acked <= c.credit {
      var next := c.pendingVt[0];
      assert HonestChunk(next, told.bytes);
      var d := c.(pendingVt := c.pendingVt[1..], pendingBytes := c.pendingBytes - |next.data|);
      SendSays(d, Output(next.End(), next.data), told);
      SaysThen(c, d, d.SendOutput(next), told);
      SendQueuedSays(d.SendOutput(next), told);
      SaysThen(c, d.SendOutput(next), c.SendQueued(), told);
    }
  }

  lemma {:induction false} ExitSays(c: Conn, exit: Option<nat>, grid: Option<Grid>, told: Told)
    requires exit == told.exit
    ensures Says(c, c.MaybeSendExit(exit, grid), told)
  {
    hide Conn.Send;
    hide Conn.SendKeyframe;
    if exit.None? || c.exitSent || !c.initialized {
    } else {
      SendSays(c, Exit(exit.value), told);
      if grid.Some? { KeyframeSays(c, grid.value, told); }
    }
  }

  lemma {:induction false} OutputAckSays(c: Conn, offset: nat, exit: Option<nat>, grid: Option<Grid>,
                                         told: Told)
    requires forall q :: q in c.pendingVt ==> HonestChunk(q, told.bytes)
    requires exit == told.exit
    ensures Says(c, c.OnOutputAck(offset, exit, grid), told)
  {
    hide Conn.Fail;
    hide Conn.SendQueued;
    hide Conn.MaybeSendExit;
    FailSays(c, told);
    var a := c.(acked := offset);
    SendQueuedSays(a, told);
    assert Says(c, a.FlushPendingVt(), told);
    ExitSays(a.FlushPendingVt(), exit, grid, told);
    SaysThen(c, a.FlushPendingVt(), a.FlushPendingVt().MaybeSendExit(exit, grid), told);
  }

  lemma {:induction false} FlushGridSays(c: Conn, told: Told)
    ensures Says(c, c.FlushGrid(), told)
  {
    if c.pendingGrid.Some? {
      SendSays(c.(pendingGrid := None), Keyframe(c.pendingGrid.value), told);
    }
  }

  lemma {:induction false} GridAckSays(c: Conn, revision: nat, exit: Option<nat>, grid: Option<Grid>,
                                       told: Told)
    requires exit == told.exit
    ensures Says(c, c.OnGridAck(revision, exit, grid), told)
  {
    hide Conn.Fail;
    hide Conn.FlushGrid;
    hide Conn.MaybeSendExit;
    FailSays(c, told);
    var a := c.(gridAcked := c.gridInFlight, gridInFlight := None);
    FlushGridSays(a, told);
    assert Says(c, a.FlushGrid(), told);
    ExitSays(a.FlushGrid(), exit, grid, told);
    SaysThen(c, a.FlushGrid(), a.FlushGrid().MaybeSendExit(exit, grid), told);
  }

  lemma {:induction false} ResyncSays(c: Conn, offset: nat, grid: Option<Grid>, told: Told)
    ensures Says(c, c.OnResync(offset, grid), told)
  {
    hide Conn.Fail;
    hide Conn.SwitchToGrid;
    FailSays(c, told);
    if grid.Some? { SwitchSays(c, grid.value, told); }
  }

  lemma {:induction false} HandleUpSays(s: System, m: Up)
    requires forall q :: q in s.conn.pendingVt ==> HonestChunk(q, s.server.bytes)
    ensures Says(s.conn, HandleUp(s, m), Known(s.server))
  {
    hide Conn.OnOutputAck;
    hide Conn.OnGridAck;
    hide Conn.OnResync;
    match m
    case OutputAck(offset) => OutputAckSays(s.conn, offset, s.server.exit, s.server.grid, Known(s.server));
    case GridAck(revision) => GridAckSays(s.conn, revision, s.server.exit, s.server.grid, Known(s.server));
    case Resync => ResyncSays(s.conn, s.server.Offset(), s.server.grid, Known(s.server));
    case ResizeApplied(revision) =>
  }

  lemma {:induction false} ReplaySays(c: Conn, terms: Terms, config: Config, told: Told, from: nat)
    requires Tiles(terms.replay, told.bytes, from, config.wireChunk)
    requires terms.exit == told.exit
    ensures Says(c, c.Replay(terms, config), told)
  {
    hide Conn.PublishAll;
    hide Conn.SwitchToGrid;
    hide Conn.MaybeSendExit;
    var d := c.PublishAll(terms.replay, terms.grid, config.maxBuffered);
    PublishAllSays(c, terms.replay, terms.grid, config.maxBuffered, told, from, config.wireChunk);
    if terms.grid.Some? { SwitchSays(d, terms.grid.value, told); }
    var e := if d.needsGrid.Some? && terms.grid.Some? && terms.grid.value.covers >= d.needsGrid.value
             then d.SwitchToGrid(terms.grid.value) else d;
    assert Says(d, e, told);
    SaysThen(c, d, e, told);
    ExitSays(e, terms.exit, terms.grid, told);
    SaysThen(c, e, e.MaybeSendExit(terms.exit, terms.grid), told);
  }

  /** An accepted hello says the welcome first; a refused one says no welcome at all. */
  lemma {:induction false} InitializeSays(c: Conn, hello: Hello, terms: Terms, config: Config, told: Told)
    requires !c.initialized && terms.exit == told.exit
    requires CanReplay(hello, terms, config) ==> Tiles(terms.replay, told.bytes, hello.resume, config.wireChunk)
    ensures var welcome := Welcome(if CanReplay(hello, terms, config) then Vt else Semantic,
                                   terms.resizeRevision, config.epoch);
            Says(c, c.Initialize(hello, terms, config), told)
            || Says(c.Send(welcome).(initialized := true), c.Initialize(hello, terms, config), told)
  {
    hide Conn.Fail;
    hide Conn.Send;
    hide Conn.Replay;
    hide Conn.MaybeSendExit;
    var replay := CanReplay(hello, terms, config);
    var welcome := Welcome(if replay then Vt else Semantic, terms.resizeRevision, config.epoch);
    var w := c.Send(welcome).(initialized := true);
    var a := c.(gridCapable := hello.grid, credit := Min(hello.credit, config.maxUnacknowledged));
    FailSays(a, told);
    assert Says(c, a, told);
    SaysThen(c, a, a.Fail(), told);
    if hello.credit >= config.wireChunk && (replay || hello.grid) {
      var b := a.(mode := welcome.mode, acked := if replay then hello.resume else 0);
      var d := b.Send(welcome).(initialized := true);
      WelcomeSays(c, b, welcome, told);
      if replay {
        ReplaySays(d, terms, config, told, hello.resume);
        SaysThen(w, d, d.Replay(terms, config), told);
      } else {
        FailSays(d, told);
        SaysThen(w, d, d.Fail(), told);
        if terms.grid.Some? {
          KeyframeSays(d, terms.grid.value, told);
          var e := d.SendKeyframe(terms.grid.value);
          SaysThen(w, d, e, told);
          ExitSays(e, terms.exit, terms.grid, told);
          SaysThen(w, e, e.MaybeSendExit(terms.exit, terms.grid), told);
        }
      }
    }
  }

  lemma {:induction false} KeyframeSays(c: Conn, g: Grid, told: Told)
    ensures Says(c, c.SendKeyframe(g), told)
  {
    SendSays(c, Keyframe(g), told);
  }

  lemma {:induction false} WelcomeSays(c: Conn, b: Conn, welcome: Down, told: Told)
    requires b == c.(gridCapable := b.gridCapable, credit := b.credit, mode := b.mode, acked := b.acked)
    ensures Says(c.Send(welcome).(initialized := true), b.Send(welcome).(initialized := true), told)
  {
  }
}
