/**
 * What holds of a connection whatever its client sends: acknowledgements are believed only for output that was
 * sent, and output never runs further ahead of them than the credit (RemoteTerminalProtocolServer.ts).
 */
module TerminalAnyClient {
  import opened Basics
  import opened Grids
  import opened TerminalState
  import opened TerminalSystem

  /** In VT mode what was acknowledged was sent, and what was sent is within the credit. */
  predicate WithinCredit(c: Conn, resume: nat) {
    c.open && c.initialized && c.mode == Vt ==>
      resume <= c.acked <= Max(resume, c.maxSent) && c.maxSent <= c.acked + c.credit
  }

  lemma {:induction false} SendWithin(c: Conn, m: Down, resume: nat)
    requires WithinCredit(c, resume)
    ensures WithinCredit(c.Send(m), resume)
  {
  }

  lemma {:induction false} OutputWithin(c: Conn, chunk: Chunk, resume: nat)
    requires WithinCredit(c, resume) && chunk.End() <= c.acked + c.credit
    ensures WithinCredit(c.SendOutput(chunk), resume)
    ensures var d := c.SendOutput(chunk);
            d == c.(wire := d.wire, lost := d.lost, blocked := d.blocked, room := d.room, maxSent := d.maxSent)
  {
  }

  lemma {:induction false} QueueWithin(c: Conn, chunk: Chunk, limit: nat, resume: nat)
    requires WithinCredit(c, resume)
    ensures WithinCredit(c.QueueVt(chunk, limit), resume)
    ensures WithinCredit(c.QueueVt(chunk, limit).SetFlowPaused(true), resume)
  {
  }

  lemma {:induction false} PublishWithin(c: Conn, chunk: Chunk, grid: Option<Grid>, limit: nat, resume: nat)
    requires WithinCredit(c, resume)
    ensures WithinCredit(c.PublishOutput(chunk, grid, limit), resume)
  {
    hide Conn.SwitchToGrid;
    hide Conn.QueueVt;
    hide Conn.SendOutput;
    hide Conn.SetFlowPaused;
    var d := c.(needsGrid := Some(chunk.End()));
    QueueWithin(d, chunk, limit, resume);
    if c.initialized && grid.Some? { Leaves(d, grid.value); }
    if chunk.End() <= c.acked + c.credit { OutputWithin(c, chunk, resume); }
  }

  lemma {:induction false} Leaves(c: Conn, g: Grid)
    requires c.initialized
    ensures c.SwitchToGrid(g).mode == Semantic
  {
  }

  lemma {:induction false} PublishAllWithin(c: Conn, chunks: seq<Chunk>, grid: Option<Grid>, limit: nat, resume: nat)
    requires WithinCredit(c, resume)
    ensures WithinCredit(c.PublishAll(chunks, grid, limit), resume)
    decreases |chunks|
  {
    hide Conn.PublishOutput;
    if chunks != [] {
      PublishWithin(c, chunks[0], grid, limit, resume);
      PublishAllWithin(c.PublishOutput(chunks[0], grid, limit), chunks[1..], grid, limit, resume);
    }
  }

  /** The connection without its oldest queued output. */
  function Headless(c: Conn): Conn
    requires c.pendingVt != []
  {
    c.(pendingVt := c.pendingVt[1..], pendingBytes := c.pendingBytes - |c.pendingVt[0].data|)
  }

  lemma {:induction false} HeadQueued(c: Conn)
    requires c.pendingVt != [] && c.pendingVt[0].End() - c.acked <= c.credit
    ensures c.SendQueued() == Headless(c).SendOutput(c.pendingVt[0]).SendQueued()
  {
    hide Conn.Grown;
    hide Conn.Send;
  }

  lemma {:induction false} SendQueuedWithin(c: Conn, resume: nat)
    requires WithinCredit(c, resume)
    ensures WithinCredit(c.SendQueued(), resume)
    decreases |c.pendingVt|
  {
    if c.pendingVt != [] && c.pendingVt[0].End() - c.acked <= c.credit {
      HeadQueued(c);
      assert WithinCredit(Headless(c), resume);
      OutputWithin(Headless(c), c.pendingVt[0], resume);
      hide Conn.SendOutput;
      hide Conn.SendQueued;
      hide WithinCredit;
      SendQueuedWithin(Headless(c).SendOutput(c.pendingVt[0]), resume);
    }
  }

  lemma {:induction false} ExitWithin(c: Conn, exit: Option<nat>, grid: Option<Grid>, resume: nat)
    requires WithinCredit(c, resume)
    ensures WithinCredit(c.MaybeSendExit(exit, grid), resume)
  {
  }

  lemma {:induction false} AckWithin(c: Conn, offset: nat, exit: Option<nat>, grid: Option<Grid>, resume: nat)
    requires WithinCredit(c, resume)
    ensures var d := c.OnOutputAck(offset, exit, grid); WithinCredit(d, resume) && (d.open ==> c.acked <= d.acked)
  {
    hide Conn.MaybeSendExit;
    hide Conn.SendQueued;
    if c.acked <= offset <= c.maxSent {
      var d := c.(acked := offset);
      SendQueuedWithin(d, resume);
      ExitWithin(d.FlushPendingVt(), exit, grid, resume);
    }
  }

  /** A grid acknowledgement is believed only for the grid in flight. */
  lemma {:induction false} GridAckWithin(c: Conn, revision: nat, exit: Option<nat>, grid: Option<Grid>, resume: nat)
    requires WithinCredit(c, resume)
    ensures var d := c.OnGridAck(revision, exit, grid);
            && WithinCredit(d, resume)
            && (d.open && d.gridAcked != c.gridAcked ==>
                  c.gridInFlight.Some? && d.gridAcked == c.gridInFlight && revision == c.gridInFlight.value.revision)
  {
    hide Conn.MaybeSendExit;
    if c.gridInFlight.Some? && revision == c.gridInFlight.value.revision {
      var d := c.(gridAcked := c.gridInFlight, gridInFlight := None);
      ExitWithin(d.FlushGrid(), exit, grid, resume);
    }
  }

  lemma {:induction false} HandledWithin(s: System, m: Up, resume: nat)
    requires WithinCredit(s.conn, resume) && s.conn.initialized
    ensures WithinCredit(HandleUp(s, m), resume)
    ensures m.OutputAck? && HandleUp(s, m).open ==> s.conn.acked <= HandleUp(s, m).acked == m.offset <= s.conn.maxSent
  {
    hide Conn.OnOutputAck;
    hide Conn.OnGridAck;
    hide Conn.SwitchToGrid;
    match m
    case OutputAck(offset) =>
      AckWithin(s.conn, offset, s.server.exit, s.server.grid, resume);
      AckedOffset(s.conn, offset, s.server.exit, s.server.grid);
    case GridAck(revision) => GridAckWithin(s.conn, revision, s.server.exit, s.server.grid, resume);
    case Resync => if s.server.grid.Some? { Leaves(s.conn, s.server.grid.value); }
    case ResizeApplied(_) =>
  }

  lemma {:induction false} AckedOffset(c: Conn, offset: nat, exit: Option<nat>, grid: Option<Grid>)
    ensures var d := c.OnOutputAck(offset, exit, grid);
            d.open ==> c.acked <= d.acked == offset <= c.maxSent
  {
    hide Conn.MaybeSendExit;
    hide Conn.FlushPendingVt;
    hide Conn.Grown;
    FailCloses(c);
    hide Conn.Fail;
  }

  lemma {:induction false} FailCloses(c: Conn)
    ensures !c.Fail().open
  {
  }

  // ----- Runs with any client -----

  /** A step of the system, or anything at all that the client may say. */
  datatype Move = Acts(action: Action) | Says(message: Up)

  function Apply(s: System, m: Move): System
    requires 1 <= s.config.wireChunk
  {
    match m
    case Acts(a) => Step(s, a)
    case Says(message) => if s.conn.open && s.conn.initialized then s.(conn := HandleUp(s, message)) else s
  }

  function RunAny(s: System, moves: seq<Move>): System
    requires 1 <= s.config.wireChunk
    decreases |moves|
  {
    if moves == [] then s else RunAny(Apply(s, moves[0]), moves[1..])
  }

  predicate Sound(s: System) {
    && 1 <= s.config.wireChunk && WithinCredit(s.conn, s.hello.resume)
    && (!s.conn.initialized ==> s.conn.maxSent == 0)
  }

  lemma {:induction false} HelloWithin(c: Conn, hello: Hello, terms: Terms, config: Config)
    requires !c.initialized && c.maxSent == 0
    ensures WithinCredit(c.Initialize(hello, terms, config), hello.resume)
    ensures !c.Initialize(hello, terms, config).initialized ==> c.Initialize(hello, terms, config).maxSent == 0
  {
    hide Conn.Replay;
    hide Conn.MaybeSendExit;
    hide Conn.SendKeyframe;
    hide CanReplay;
    var replay := CanReplay(hello, terms, config);
    var mode := if replay then Vt else Semantic;
    var b := c.(gridCapable := hello.grid, credit := Min(hello.credit, config.maxUnacknowledged))
              .(mode := mode, acked := if replay then hello.resume else 0);
    var d := b.Send(Welcome(mode, terms.resizeRevision, config.epoch)).(initialized := true);
    if replay && hello.credit >= config.wireChunk {
      ReplayWithin(d, terms, config, hello.resume);
    } else if !replay && terms.grid.Some? {
      StaysSemantic(d, terms.exit, terms.grid, terms.grid.value);
    }
  }

  lemma {:induction false} ReplayWithin(c: Conn, terms: Terms, config: Config, resume: nat)
    requires WithinCredit(c, resume) && c.initialized
    ensures WithinCredit(c.Replay(terms, config), resume) && c.Replay(terms, config).initialized
  {
    hide Conn.PublishAll;
    hide Conn.SwitchToGrid;
    hide Conn.MaybeSendExit;
    PublishAllWithin(c, terms.replay, terms.grid, config.maxBuffered, resume);
    var d := c.PublishAll(terms.replay, terms.grid, config.maxBuffered);
    if terms.grid.Some? {
      Leaves(d, terms.grid.value);
      ExitWithin(d.SwitchToGrid(terms.grid.value), terms.exit, terms.grid, resume);
    }
    ExitWithin(d, terms.exit, terms.grid, resume);
  }

  lemma {:induction false} StaysSemantic(c: Conn, exit: Option<nat>, grid: Option<Grid>, g: Grid)
    requires c.mode == Semantic && c.initialized
    ensures var d := c.SendKeyframe(g).MaybeSendExit(exit, grid); d.mode == Semantic && d.initialized
  {
  }

  lemma {:induction false} GridWithin(c: Conn, previous: Option<Grid>, next: Grid, resume: nat)
    requires WithinCredit(c, resume)
    ensures WithinCredit(c.PublishGrid(previous, next), resume)
  {
    hide Conn.SwitchToGrid;
    hide Conn.SendGrid;
    if c.initialized { Leaves(c, next); }
  }

  lemma {:induction false} OutputSound(s: System, data: seq<Byte>)
    requires Sound(s)
    ensures Sound(CommitOutput(s, data))
  {
    hide Conn.PublishAll;
    hide CommitChunks;
    var chunks := Split(s.server.Offset(), data, s.config.wireChunk);
    PublishAllWithin(s.conn, chunks, s.server.grid, s.config.maxBuffered, s.hello.resume);
    if !s.conn.initialized { Unheard(s.conn, chunks, s.server.grid, s.config.maxBuffered); }
  }

  lemma {:induction false} Unheard(c: Conn, chunks: seq<Chunk>, grid: Option<Grid>, limit: nat)
    requires !c.initialized
    ensures c.PublishAll(chunks, grid, limit) == c
    decreases |chunks|
  {
    if chunks != [] { Unheard(c, chunks[1..], grid, limit); }
  }

  lemma {:induction false} GridSound(s: System, state: Grid)
    requires Sound(s)
    ensures Sound(CommitGrid(s, state))
  {
    hide Conn.PublishGrid;
    var next := state.(revision := s.server.gridRevision + 1);
    GridWithin(s.conn, s.server.grid, next, s.hello.resume);
    if !s.conn.initialized { UnheardGrid(s.conn, s.server.grid, next); }
  }

  lemma {:induction false} UnheardGrid(c: Conn, previous: Option<Grid>, next: Grid)
    requires !c.initialized
    ensures c.PublishGrid(previous, next) == c
  {
  }

  lemma {:induction false} UpdateSound(s: System, u: Update)
    requires Sound(s)
    ensures Sound(CommitUpdate(s, u))
  {
    hide CommitOutput;
    hide CommitGrid;
    OutputSound(s, u.data);
    var t := CommitOutput(s, u.data);
    GridSound(t, u.state.(covers := t.server.Offset()));
  }

  lemma {:induction false} OutputsSound(s: System, outputs: seq<seq<Byte>>)
    requires Sound(s)
    ensures Sound(CommitOutputs(s, outputs))
    decreases |outputs|
  {
    hide CommitOutput;
    if outputs != [] {
      OutputSound(s, outputs[0]);
      OutputsSound(CommitOutput(s, outputs[0]), outputs[1..]);
    }
  }

  lemma {:induction false} UpdatesSound(s: System, updates: seq<Update>)
    requires Sound(s)
    ensures Sound(CommitUpdates(s, updates))
    decreases |updates|
  {
    hide CommitUpdate;
    if updates != [] {
      UpdateSound(s, updates[0]);
      UpdatesSound(CommitUpdate(s, updates[0]), updates[1..]);
    }
  }

  lemma {:induction false} GridsSound(s: System, grids: seq<Grid>)
    requires Sound(s)
    ensures Sound(CommitGrids(s, grids))
    decreases |grids|
  {
    hide CommitGrid;
    if grids != [] {
      GridSound(s, grids[0]);
      GridsSound(CommitGrid(s, grids[0]), grids[1..]);
    }
  }

  lemma {:induction false} FlushSound(s: System)
    requires Sound(s)
    ensures Sound(FlushDeferred(s))
  {
    hide CommitOutputs;
    hide CommitUpdates;
    hide CommitGrids;
    var server := s.server;
    var cleared := s.(server := server.(resizing := false, deferredOutput := [], deferredUpdates := [],
                                        deferredGrids := [], deferredBytes := 0));
    OutputsSound(cleared, server.deferredOutput);
    var t := CommitOutputs(cleared, server.deferredOutput);
    UpdatesSound(t, server.deferredUpdates);
    GridsSound(CommitUpdates(t, server.deferredUpdates), server.deferredGrids);
  }

  lemma {:induction false} AnnounceSound(s: System, cols: nat, rows: nat)
    requires Sound(s)
    ensures Sound(AnnounceResize(s, cols, rows))
  {
    var r := Resize(s.server.barrier, cols, rows, s.server.resizeRevision + 1);
    SendWithin(s.conn, Resized(r), s.hello.resume);
  }

  lemma {:induction false} HandledSound(s: System, m: Up)
    requires Sound(s) && s.conn.open && s.conn.initialized
    ensures Sound(s.(conn := HandleUp(s, m)))
  {
    hide HandleUp;
    HandledWithin(s, m, s.hello.resume);
    assert s.conn.Grown(HandleUp(s, m));
  }

  lemma {:induction false} ExitSound(s: System, exit: Option<nat>)
    requires Sound(s)
    ensures Sound(s.(conn := s.conn.MaybeSendExit(exit, s.server.grid), server := s.server.(exit := exit)))
  {
    ExitWithin(s.conn, exit, s.server.grid, s.hello.resume);
  }

  lemma {:induction false} DrainSound(s: System)
    requires Sound(s)
    ensures Sound(s.(conn := s.conn.Drain()))
  {
  }

  lemma {:induction false} StepSound(s: System, a: Action)
    requires Sound(s)
    ensures Sound(Step(s, a))
  {
    hide CommitOutput;
    hide CommitGrid;
    hide CommitUpdate;
    hide Conn.Drain;
    hide Conn.Initialize;
    hide Conn.MaybeSendExit;
    hide HandleUp;
    hide Client.Receive;
    hide FlushDeferred;
    hide AnnounceResize;
    match a
    case ReceiveHello =>
      if s.conn.open && !s.conn.initialized { HelloWithin(s.conn, s.hello, TermsFor(s), s.config); }
    case PublishOutput(data) => OutputSound(s, data);
    case PublishGrid(state, _) => GridSound(s, state);
    case PublishUpdate(update) => UpdateSound(s, update);
    case ResizeEnd(cols, rows, succeeded) =>
      AnnounceSound(s, cols, rows);
      FlushSound(if succeeded then AnnounceResize(s, cols, rows) else s);
    case PublishExit => ExitSound(s, Some(s.server.Offset()));
    case Drain => DrainSound(s);
    case ServerReceive =>
      if s.conn.open && s.conn.initialized && s.client.up != [] { HandledSound(s, s.client.up[0]); }
    case _ =>
  }

  lemma {:induction false} RunSound(s: System, moves: seq<Move>)
    requires Sound(s)
    ensures Sound(RunAny(s, moves))
    decreases |moves|
  {
    hide Step;
    hide Sound;
    hide HandleUp;
    if moves != [] {
      SoundSetup(s);
      match moves[0] {
        case Acts(a) => StepSound(s, a);
        case Says(m) => if s.conn.open && s.conn.initialized { HandledSound(s, m); }
      }
      RunSound(Apply(s, moves[0]), moves[1..]);
    }
  }

  lemma {:induction false} SoundSetup(s: System)
    requires Sound(s)
    ensures 1 <= s.config.wireChunk
  {
  }

  /** Whatever the client says and whenever: as long as the connection stays open in VT mode, the server believes
      no acknowledgement of output it never sent, none that goes back, and has sent no output further than the
      negotiated credit beyond what was acknowledged. */
  lemma {:induction false} AnyClientIsHeldToCredit(s0: System, moves: seq<Move>, m: Up)
    requires Initial(s0)
    ensures var s := RunAny(s0, moves);
            s.conn.open && s.conn.initialized && s.conn.mode == Vt ==>
              && s.hello.resume <= s.conn.acked <= Max(s.hello.resume, s.conn.maxSent)
              && s.conn.maxSent <= s.conn.acked + s.conn.credit
              && (m.OutputAck? && HandleUp(s, m).open ==>
                    s.conn.acked <= HandleUp(s, m).acked == m.offset <= s.conn.maxSent)
  {
    assert Sound(s0);
    RunSound(s0, moves);
    hide RunAny;
    var s := RunAny(s0, moves);
    if s.conn.open && s.conn.initialized && s.conn.mode == Vt { HandledWithin(s, m, s.hello.resume); }
    hide HandleUp;
  }

  /** A client that is refused does not go on holding the process. */
  lemma {:induction false} RefusedIsReleased(s: System, m: Up)
    requires s.conn.open && s.conn.mayWrite && !HandleUp(s, m).open
    ensures !HandleUp(s, m).paused
  {
    hide Conn.SwitchToGrid;
    hide Conn.MaybeSendExit;
    hide Conn.FlushPendingVt;
    hide Conn.FlushGrid;
    match m
    case OutputAck(offset) => AckStaysOpen(s.conn, offset, s.server.exit, s.server.grid);
    case GridAck(revision) => GridAckStaysOpen(s.conn, revision, s.server.exit, s.server.grid);
    case Resync => if s.server.grid.Some? { SwitchStaysOpen(s.conn, s.server.grid.value); }
    case ResizeApplied(_) =>
  }

  lemma {:induction false} SendStaysOpen(c: Conn, m: Down)
    ensures c.Send(m).open == c.open && c.Send(m).gridInFlight == c.gridInFlight
  {
  }

  lemma {:induction false} SwitchStaysOpen(c: Conn, g: Grid)
    ensures c.SwitchToGrid(g).open == c.open
  {
    hide Conn.Grown;
    hide Conn.Send;
    var b := if c.gridInFlight.Some? then c.(pendingGrid := Some(g)) else c;
    var d := b.(mode := Semantic, needsGrid := None, pendingVt := [], pendingBytes := 0).SetFlowPaused(false);
    SendStaysOpen(d, ModeSwitch);
    SendStaysOpen(d.Send(ModeSwitch), Keyframe(g));
  }

  lemma {:induction false} ExitStaysOpen(c: Conn, exit: Option<nat>, grid: Option<Grid>)
    ensures c.MaybeSendExit(exit, grid).open == c.open
  {
  }

  lemma {:induction false} QueuedStaysOpen(c: Conn)
    ensures c.SendQueued().open == c.open
    decreases |c.pendingVt|
  {
    if c.pendingVt != [] && c.pendingVt[0].End() - c.acked <= c.credit {
      HeadQueued(c);
      HeadStaysOpen(c);
      hide Conn.SendOutput;
      hide Conn.SendQueued;
      QueuedStaysOpen(Headless(c).SendOutput(c.pendingVt[0]));
    }
  }

  lemma {:induction false} HeadStaysOpen(c: Conn)
    requires c.pendingVt != []
    ensures var d := Headless(c).SendOutput(c.pendingVt[0]); d.open == c.open && |d.pendingVt| < |c.pendingVt|
  {
  }

  lemma {:induction false} AckStaysOpen(c: Conn, offset: nat, exit: Option<nat>, grid: Option<Grid>)
    requires c.open && c.mayWrite
    ensures var d := c.OnOutputAck(offset, exit, grid); !d.open ==> !d.paused
  {
    hide Conn.MaybeSendExit;
    hide Conn.SendQueued;
    if c.acked <= offset <= c.maxSent {
      var d := c.(acked := offset);
      QueuedStaysOpen(d);
      ExitStaysOpen(d.FlushPendingVt(), exit, grid);
    }
  }

  lemma {:induction false} GridAckStaysOpen(c: Conn, revision: nat, exit: Option<nat>, grid: Option<Grid>)
    requires c.open && c.mayWrite
    ensures var d := c.OnGridAck(revision, exit, grid); !d.open ==> !d.paused
  {
    hide Conn.MaybeSendExit;
    if c.gridInFlight.Some? && revision == c.gridInFlight.value.revision {
      ExitStaysOpen(c.(gridAcked := c.gridInFlight, gridInFlight := None).FlushGrid(), exit, grid);
    }
  }
}
