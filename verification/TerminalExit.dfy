/** The exit in grid mode: it waits for a grid that covers it to be acknowledged. */
module TerminalExit {
  import opened Basics
  import opened Grids
  import opened TerminalState
  import opened TerminalSystem
  import opened TerminalGrid
  import opened TerminalGridRuns
  import TerminalVtRuns

  predicate Covers(grid: Option<Grid>, exit: Option<nat>) {
    exit.Some? && grid.Some? && exit.value <= grid.value.covers
  }

  // ----- An acknowledged grid that covers the exit brings it about -----

  predicate Told(s: System) {
    s.conn.open && s.client.open && Covers(s.conn.gridAcked, s.server.exit) ==> s.conn.exitSent
  }

  lemma {:induction false} SendsCoveredExit(c: Conn, exit: Option<nat>, grid: Option<Grid>, e: Ends)
    requires Linked(View(c), e) && Covers(c.gridAcked, exit)
    ensures c.MaybeSendExit(exit, grid).exitSent
  {
    hide GridPackets;
    hide GridAcks;
  }

  lemma {:induction false} AckTold(s: System)
    requires 1 <= s.config.wireChunk && Tracked(s) && Told(s) && s.conn.open && s.client.open
    requires s.conn.initialized && s.client.up != []
    ensures Told(Step(s, ServerReceive))
  {
    hide Conn.OnOutputAck;
    hide Conn.OnResync;
    hide Conn.FlushGrid;
    hide Conn.Fail;
    hide GridPackets;
    var m := s.client.up[0];
    if m.GridAck? && s.conn.gridInFlight.Some? && m.revision == s.conn.gridInFlight.value.revision {
      var c := s.conn.(gridAcked := s.conn.gridInFlight, gridInFlight := None);
      InGridMode(c.FlushGrid(), s.server.exit, s.server.grid);
      FlushStays(c);
      assert s.conn.mode == Semantic;
    }
  }

  lemma {:induction false} FlushStays(c: Conn)
    ensures c.FlushGrid().mode == c.mode && c.FlushGrid().initialized == c.initialized
  {
  }

  lemma {:induction false} InGridMode(c: Conn, exit: Option<nat>, grid: Option<Grid>)
    ensures c.initialized && c.mode == Semantic && Covers(c.gridAcked, exit) ==> c.MaybeSendExit(exit, grid).exitSent
  {
  }

  lemma {:induction false} StepTold(s: System, a: Action)
    requires 1 <= s.config.wireChunk && Tracked(s) && Told(s)
    ensures Told(Step(s, a))
  {
    hide Conn.Initialize;
    hide Conn.MaybeSendExit;
    hide Conn.Drain;
    hide Client.Receive;
    hide CommitOutput;
    hide CommitGrid;
    hide CommitUpdate;
    hide FlushDeferred;
    hide HandleUp;
    hide Linked;
    match a
    case ReceiveHello => if s.conn.open && !s.conn.initialized && s.client.open { NothingAckedYet(s); }
    case PublishOutput(data) => if MayPublish(s) { CommitOutputTracked(s, data); }
    case PublishGrid(state, size) => if MayPublish(s) { CommitGridTracked(s, state); }
    case PublishUpdate(update) => if MayPublish(s) { CommitUpdateTracked(s, update); }
    case ResizeEnd(cols, rows, succeeded) =>
      var t := if succeeded then AnnounceResize(s, cols, rows) else s;
      AnnounceTracked(s, cols, rows);
      FlushDeferredTracked(t);
    case PublishExit =>
      if s.conn.open && s.client.open && Covers(s.conn.gridAcked, Some(s.server.Offset())) {
        SendsCoveredExit(s.conn, Some(s.server.Offset()), s.server.grid, EndsOf(s));
      }
    case ServerReceive =>
      if s.conn.open && s.client.open && s.conn.initialized && s.client.up != [] { AckTold(s); }
    case _ =>
  }

  lemma {:induction false} NothingAckedYet(s: System)
    requires Tracked(s) && s.conn.open && s.client.open && !s.conn.initialized
    ensures s.conn.gridAcked.None?
  {
  }

  lemma {:induction false} RunTold(s: System, actions: seq<Action>)
    requires 1 <= s.config.wireChunk && Tracked(s) && Told(s)
    ensures Told(Run(s, actions))
    decreases |actions|
  {
    hide Step;
    hide Tracked;
    hide Told;
    if actions != [] {
      StepTracked(s, actions[0]);
      StepTold(s, actions[0]);
      RunTold(Step(s, actions[0]), actions[1..]);
    }
  }

  // ----- Nothing else does -----

  /** The process has exited, and a grid that covers its exit was acknowledged, is in flight, or is current. */
  predicate Covered(s: System) {
    || Covers(s.conn.gridAcked, s.server.exit) || Covers(s.conn.gridInFlight, s.server.exit)
    || Covers(s.server.grid, s.server.exit)
  }

  predicate EverCovered(s: System, actions: seq<Action>)
    requires 1 <= s.config.wireChunk
    decreases |actions|
  {
    Covered(s) || (actions != [] && EverCovered(Step(s, actions[0]), actions[1..]))
  }

  /** The exit is sent on an initialized connection after the process exited. */
  predicate SentLate(s: System) { Live(s) && s.conn.exitSent ==> s.server.exit.Some? && s.conn.initialized }

  predicate Sound(s: System) {
    TerminalVtRuns.VtTracked(s) && Tracked(s) && Told(s) && SentLate(s)
  }

  lemma {:induction false} SoundSetup(s: System)
    requires Sound(s)
    ensures 1 <= s.config.wireChunk
  {
  }

  predicate Live(s: System) { s.conn.open && s.client.open }

  /** What a step of a connection does with the exit: it is sent in grid mode only over an acknowledged grid,
      and a covering grid is not given up for another. */
  predicate Careful(c: Conn, d: Conn, exit: Option<nat>, grid: Option<Grid>) {
    && (c.exitSent ==> d.exitSent)
    && (d.exitSent && !c.exitSent ==> exit.Some? && d.initialized)
    && (d.exitSent && d.mode == Semantic ==>
          (c.exitSent && c.mode == Semantic) || Covers(d.gridAcked, exit) || Covers(grid, exit))
    && (Covers(c.gridAcked, exit) || Covers(c.gridInFlight, exit) ==>
          d.exitSent || Covers(d.gridAcked, exit) || Covers(d.gridInFlight, exit))
  }

  lemma {:induction false} ExitCareful(c: Conn, exit: Option<nat>, grid: Option<Grid>)
    ensures var d := c.MaybeSendExit(exit, grid);
            && d.mode == c.mode && (c.gridInFlight.Some? ==> d.gridInFlight == c.gridInFlight)
            && (d.exitSent && !c.exitSent ==>
                  exit.Some? && c.initialized && (c.mode == Semantic ==> Covers(c.gridAcked, exit)))
    ensures Careful(c, c.MaybeSendExit(exit, grid), exit, grid)
  {
  }

  lemma {:induction false} QueuedMode(c: Conn)
    ensures var d := c.SendQueued();
            d.mode == c.mode && d.gridInFlight == c.gridInFlight && d.initialized == c.initialized
    decreases |c.pendingVt|
  {
    if c.pendingVt != [] && c.pendingVt[0].End() - c.acked <= c.credit {
      var next := c.pendingVt[0];
      QueuedMode(c.(pendingVt := c.pendingVt[1..], pendingBytes := c.pendingBytes - |next.data|).SendOutput(next));
    }
  }

  lemma {:induction false} OutputAckCareful(c: Conn, offset: nat, exit: Option<nat>, grid: Option<Grid>)
    ensures Careful(c, c.OnOutputAck(offset, exit, grid), exit, grid)
  {
    hide Conn.MaybeSendExit;
    if c.acked <= offset <= c.maxSent {
      var d := c.(acked := offset);
      QueuedMode(d);
      ExitCareful(d.FlushPendingVt(), exit, grid);
    }
  }

  lemma {:induction false} GridAckCareful(c: Conn, revision: nat, exit: Option<nat>, grid: Option<Grid>)
    requires Covers(c.gridAcked, exit) ==> c.exitSent
    requires c.gridInFlight.Some? ==> c.initialized && c.mode == Semantic
    ensures c.OnGridAck(revision, exit, grid).open ==> Careful(c, c.OnGridAck(revision, exit, grid), exit, grid)
  {
    if c.gridInFlight.Some? && revision == c.gridInFlight.value.revision {
      var d := c.(gridAcked := c.gridInFlight, gridInFlight := None);
      FlushStays(d);
      hide Conn.FlushGrid;
      ExitCareful(d.FlushGrid(), exit, grid);
      InGridMode(d.FlushGrid(), exit, grid);
      hide Conn.MaybeSendExit;
    }
  }

  lemma {:induction false} ResyncCareful(c: Conn, offset: nat, exit: Option<nat>, grid: Option<Grid>)
    requires exit.Some? ==> exit.value == offset
    requires c.exitSent ==> exit.Some?
    ensures c.OnResync(offset, grid).open ==> Careful(c, c.OnResync(offset, grid), exit, grid)
  {
  }

  lemma {:induction false} DrainCareful(c: Conn, exit: Option<nat>, grid: Option<Grid>)
    ensures Careful(c, c.Drain(), exit, grid)
  {
  }

  lemma {:induction false} ReplayCareful(c: Conn, terms: Terms, config: Config)
    requires c.initialized && !c.exitSent && c.gridAcked.None?
    ensures var d := c.Replay(terms, config); d.exitSent ==> terms.exit.Some? && d.initialized && d.mode == Vt
  {
    hide Conn.PublishAll;
    hide Conn.SwitchToGrid;
    hide Conn.MaybeSendExit;
    var e := c.PublishAll(terms.replay, terms.grid, config.maxBuffered);
    var d := if e.needsGrid.Some? && terms.grid.Some? && terms.grid.value.covers >= e.needsGrid.value
             then e.SwitchToGrid(terms.grid.value) else e;
    ExitCareful(d, terms.exit, terms.grid);
  }

  lemma {:induction false} HelloCareful(c: Conn, hello: Hello, terms: Terms, config: Config)
    requires !c.initialized && !c.exitSent && c.gridAcked.None? && c.gridInFlight.None?
    ensures Careful(c, c.Initialize(hello, terms, config), terms.exit, terms.grid)
  {
    hide Conn.Replay;
    hide Conn.MaybeSendExit;
    var replay := CanReplay(hello, terms, config);
    var b := c.(gridCapable := hello.grid, credit := Min(hello.credit, config.maxUnacknowledged));
    var mode := if replay then Vt else Semantic;
    var d := b.(mode := mode, acked := if replay then hello.resume else 0)
              .Send(Welcome(mode, terms.resizeRevision, config.epoch)).(initialized := true);
    if hello.credit >= config.wireChunk && (replay || hello.grid) {
      if replay {
        ReplayCareful(d, terms, config);
      } else if terms.grid.Some? && terms.grid.value.covers >= terms.offset {
        ExitCareful(d.SendKeyframe(terms.grid.value), terms.exit, terms.grid);
      }
    }
  }

  lemma {:induction false} HandleUpCareful(s: System)
    requires Sound(s) && Live(s) && s.conn.initialized && s.client.up != []
    ensures HandleUp(s, s.client.up[0]).open ==>
              Careful(s.conn, HandleUp(s, s.client.up[0]), s.server.exit, s.server.grid)
  {
    hide Conn.OnOutputAck;
    hide Conn.OnGridAck;
    hide Conn.OnResync;
    hide GridPackets;
    hide GridAcks;
    match s.client.up[0]
    case OutputAck(offset) => OutputAckCareful(s.conn, offset, s.server.exit, s.server.grid);
    case GridAck(revision) => GridAckCareful(s.conn, revision, s.server.exit, s.server.grid);
    case Resync => ResyncCareful(s.conn, s.server.Offset(), s.server.exit, s.server.grid);
    case ResizeApplied(_) =>
  }

  /** After the exit nothing is published, and nothing was deferred. */
  lemma {:induction false} ResizeEndCareful(s: System, cols: nat, rows: nat, succeeded: bool)
    requires TerminalVtRuns.VtTracked(s) && s.server.exit.Some?
    ensures var t := Step(s, ResizeEnd(cols, rows, succeeded));
            && t.server.exit == s.server.exit && t.server.grid == s.server.grid
            && Careful(s.conn, t.conn, s.server.exit, s.server.grid)
  {
  }

  /** The server's side of a step after the exit. */
  lemma {:induction false} ExitedStep(s: System, a: Action)
    requires Sound(s) && Live(s) && s.server.exit.Some? && Live(Step(s, a))
    ensures var t := Step(s, a);
            && t.server.exit == s.server.exit && t.server.grid == s.server.grid
            && Careful(s.conn, t.conn, s.server.exit, s.server.grid)
  {
    hide Conn.Initialize;
    hide Conn.Drain;
    hide Client.Receive;
    hide HandleUp;
    hide FlushDeferred;
    match a
    case ReceiveHello =>
      if !s.conn.initialized {
        HelloUntold(s);
        HelloCareful(s.conn, s.hello, TermsFor(s), s.config);
      }
    case ResizeEnd(cols, rows, succeeded) => ResizeEndCareful(s, cols, rows, succeeded);
    case Drain => DrainCareful(s.conn, s.server.exit, s.server.grid);
    case ServerReceive => if s.conn.initialized && s.client.up != [] { HandleUpCareful(s); }
    case _ =>
  }

  lemma {:induction false} HelloUntold(s: System)
    requires Tracked(s) && SentLate(s) && Live(s) && !s.conn.initialized
    ensures s.conn.gridAcked.None? && s.conn.gridInFlight.None? && !s.conn.exitSent
  {
  }

  /** What the host does while the process runs sends no exit. */
  lemma {:induction false} HostStep(s: System, a: Action)
    requires Sound(s) && s.server.exit.None?
    requires a.PublishOutput? || a.PublishGrid? || a.PublishUpdate? || a.ResizeBegin? || a.ResizeEnd?
    ensures Step(s, a).conn.exitSent == s.conn.exitSent
  {
    hide CommitOutput;
    hide CommitGrid;
    hide CommitUpdate;
    hide FlushDeferred;
    hide Sound;
  }

  lemma {:induction false} RunningAck(s: System)
    requires Sound(s) && Live(s) && s.server.exit.None? && s.conn.initialized && s.client.up != []
    ensures HandleUp(s, s.client.up[0]).open ==> !HandleUp(s, s.client.up[0]).exitSent
  {
    hide HandleUp;
    HandleUpCareful(s);
  }

  /** While the process runs no exit is sent. */
  lemma {:induction false} RunningStep(s: System, a: Action)
    requires Sound(s) && Live(s) && s.server.exit.None? && Live(Step(s, a))
    ensures var t := Step(s, a);
            && SentLate(t) && (t.conn.exitSent && t.conn.mode == Semantic ==> Covered(t))
  {
    hide Conn.Initialize;
    hide Conn.Drain;
    hide Conn.MaybeSendExit;
    hide Client.Receive;
    hide HandleUp;
    assert !s.conn.exitSent;
    match a
    case ReceiveHello =>
      if !s.conn.initialized {
        HelloUntold(s);
        HelloCareful(s.conn, s.hello, TermsFor(s), s.config);
      }
    case PublishExit => ExitCareful(s.conn, Some(s.server.Offset()), s.server.grid);
    case Drain => DrainCareful(s.conn, s.server.exit, s.server.grid);
    case ServerReceive => if s.conn.initialized && s.client.up != [] { RunningAck(s); }
    case SetRoom(_) =>
    case ClientReceive =>
    case Disconnect =>
    case _ =>
      HostStep(s, a);
      hide Step;
  }

  /** What has happened so far decides: `ever` says whether a covering grid was ever seen. */
  predicate Decided(s: System, ever: bool) {
    Live(s) ==>
      && (s.conn.exitSent && s.conn.mode == Semantic ==> ever)
      && (ever ==> s.server.exit.Some? && (s.conn.exitSent || Covered(s)))
  }

  /** Neither end opens again. */
  lemma {:induction false} LiveBefore(s: System, a: Action)
    requires 1 <= s.config.wireChunk && Live(Step(s, a))
    ensures Live(s)
  {
    hide Conn.Initialize;
    hide Conn.Drain;
    hide Conn.MaybeSendExit;
    hide HandleUp;
    hide CommitOutput;
    hide CommitGrid;
    hide CommitUpdate;
    hide FlushDeferred;
  }

  lemma {:induction false} StepSound(s: System, a: Action)
    requires Sound(s)
    ensures Sound(Step(s, a))
  {
    var t := Step(s, a);
    hide Step;
    hide TerminalVtRuns.VtTracked;
    SoundSetup(s);
    TerminalVtRuns.StepTracked(s, a);
    StepTracked(s, a);
    StepTold(s, a);
    hide Tracked;
    hide Told;
    if Live(t) {
      LiveBefore(s, a);
      if s.server.exit.Some? { ExitedStep(s, a); } else { RunningStep(s, a); }
    }
  }

  lemma {:induction false} CarefulDecides(s: System, t: System, ever: bool)
    requires Live(s) && s.server.exit.Some? && Decided(s, ever)
    requires t.server.exit == s.server.exit && t.server.grid == s.server.grid
    requires Careful(s.conn, t.conn, s.server.exit, s.server.grid)
    ensures Decided(t, ever || Covered(t))
  {
  }

  lemma {:induction false} StepDecided(s: System, a: Action, ever: bool)
    requires Sound(s) && Decided(s, ever)
    ensures Decided(Step(s, a), ever || Covered(Step(s, a)))
  {
    hide Step;
    hide Sound;
    hide Careful;
    SoundSetup(s);
    var t := Step(s, a);
    if Live(t) {
      LiveBefore(s, a);
      if s.server.exit.Some? {
        ExitedStep(s, a);
        CarefulDecides(s, t, ever);
      } else {
        RunningStep(s, a);
      }
    }
  }

  lemma {:induction false} RunDecided(s: System, actions: seq<Action>, ever: bool)
    requires Sound(s) && Decided(s, ever) && (Covered(s) ==> ever)
    ensures Sound(Run(s, actions)) && Decided(Run(s, actions), ever || EverCovered(s, actions))
    decreases |actions|
  {
    hide Step;
    hide Sound;
    hide Decided;
    hide Covered;
    SoundSetup(s);
    if actions != [] {
      var t := Step(s, actions[0]);
      StepSound(s, actions[0]);
      StepDecided(s, actions[0], ever);
      RunDecided(t, actions[1..], ever || Covered(t));
    }
  }

  /** Nothing is in flight once both channels are empty and no grid packet was lost. */
  lemma {:induction false} NothingInFlight(s: System)
    requires Tracked(s) && Quiet(s) && s.conn.mode == Semantic && !LostGrid(s)
    ensures s.conn.gridInFlight.None? && s.conn.gridAcked == s.server.grid
  {
  }

  /** Once both channels are empty and the stream is unblocked, a client in grid mode that lost no grid packet
      has been handed the exit exactly when, at some point since the process exited, a grid that covers it was
      acknowledged, in flight or current. */
  lemma {:induction false} CoveredExitIsSentIff(s0: System, actions: seq<Action>)
    requires Initial(s0) && s0.resizesBefore <= |s0.server.resizes|
    ensures var s := Run(s0, actions);
            Quiet(s) && s.conn.mode == Semantic && !LostGrid(s) ==> (s.conn.exitSent <==> EverCovered(s0, actions))
  {
    TerminalVtRuns.InitialTracked(s0);
    InitialTracked(s0);
    assert Sound(s0) && Decided(s0, Covered(s0));
    RunDecided(s0, actions, Covered(s0));
    hide Run;
    hide TerminalVtRuns.VtTracked;
    var s := Run(s0, actions);
    if Quiet(s) && s.conn.mode == Semantic && !LostGrid(s) {
      NothingInFlight(s);
      hide Tracked;
      assert Covered(s0) ==> EverCovered(s0, actions);
    }
  }
}
