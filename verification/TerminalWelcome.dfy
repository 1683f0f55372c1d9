/**
 * Who is welcomed to a replay of the output, and who to a grid (`#initialize` of RemoteTerminalProtocolServer.ts),
 * said of the terminal's history and not of the negotiation.
 */
module TerminalWelcome {
  import opened Basics
  import opened Grids
  import opened TerminalState
  import opened TerminalSystem
  import opened TerminalPublishing
  import TerminalGridRuns
  import TerminalReplay
  import TerminalVt
  import TerminalVtRuns

  /** The resize revision counts the resizes. */
  predicate Counted(s: System) {
    && s.server.resizeRevision
       == (if s.server.resizes == [] then 0 else s.server.resizes[|s.server.resizes| - 1].revision)
    && s.leaseResize <= s.server.resizeRevision
    && (forall i :: 0 <= i < |s.server.resizes| ==> 1 <= s.server.resizes[i].revision <= s.server.resizeRevision)
  }

  /** The server of the step before, but for what was published. */
  predicate SameResizes(s: System, t: System) {
    && t.server.resizes == s.server.resizes && t.server.resizeRevision == s.server.resizeRevision
    && t.leaseResize == s.leaseResize && t.leaseOutput == s.leaseOutput
  }

  lemma {:induction false} FlushSame(s: System)
    requires 1 <= s.config.wireChunk
    ensures SameResizes(s, FlushDeferred(s))
  {
    hide CommitOutputs;
    hide CommitUpdates;
    hide CommitGrids;
    ReleaseKept(s);
    var server := s.server;
    var cleared := s.(server := server.(resizing := false, deferredOutput := [], deferredUpdates := [],
                                        deferredGrids := [], deferredBytes := 0));
    OutputsSame(cleared, server.deferredOutput);
    var t := CommitOutputs(cleared, server.deferredOutput);
    UpdatesSame(t, server.deferredUpdates);
    GridsSame(CommitUpdates(t, server.deferredUpdates), server.deferredGrids);
  }

  predicate SameLease(s: System, t: System) { t.leaseResize == s.leaseResize && t.leaseOutput == s.leaseOutput }

  lemma {:induction false} OutputsSame(s: System, outputs: seq<seq<Byte>>)
    requires 1 <= s.config.wireChunk
    ensures SameLease(s, CommitOutputs(s, outputs))
    decreases |outputs|
  {
    if outputs != [] { OutputsSame(CommitOutput(s, outputs[0]), outputs[1..]); }
  }

  lemma {:induction false} UpdatesSame(s: System, updates: seq<Update>)
    requires 1 <= s.config.wireChunk
    ensures SameLease(s, CommitUpdates(s, updates))
    decreases |updates|
  {
    if updates != [] { UpdatesSame(CommitUpdate(s, updates[0]), updates[1..]); }
  }

  lemma {:induction false} GridsSame(s: System, grids: seq<Grid>)
    ensures SameLease(s, CommitGrids(s, grids))
    decreases |grids|
  {
    if grids != [] { GridsSame(CommitGrid(s, grids[0]), grids[1..]); }
  }

  lemma {:induction false} StepCounted(s: System, a: Action)
    requires 1 <= s.config.wireChunk && Counted(s)
    ensures Counted(Step(s, a))
  {
    hide FlushDeferred;
    hide Conn.Initialize;
    hide Conn.MaybeSendExit;
    hide Conn.PublishAll;
    hide Conn.PublishGrid;
    hide Conn.Drain;
    hide Client.Receive;
    hide HandleUp;
    hide CommitChunks;
    hide Split;
    match a
    case PublishOutput(data) =>
      ChunksCommitted(s.server, Split(s.server.Offset(), data, s.config.wireChunk), s.config.maxReplay);
    case PublishUpdate(u) =>
      ChunksCommitted(s.server, Split(s.server.Offset(), u.data, s.config.wireChunk), s.config.maxReplay);
    case ResizeEnd(cols, rows, succeeded) => FlushSame(if succeeded then AnnounceResize(s, cols, rows) else s);
    case _ =>
  }

  lemma {:induction false} RunCounted(s: System, actions: seq<Action>)
    requires 1 <= s.config.wireChunk && Counted(s)
    ensures Counted(Run(s, actions)) && Run(s, actions).config == s.config
    decreases |actions|
  {
    hide Step;
    hide Counted;
    if actions != [] {
      StepCounted(s, actions[0]);
      RunCounted(Step(s, actions[0]), actions[1..]);
    }
  }

  /** The resize just ended, recorded if it succeeded at the offset where it began, and output behind it. */
  predicate Recorded(s: System, t: System, cols: nat, rows: nat, succeeded: bool) {
    && t.server.resizes
       == s.server.resizes
          + (if succeeded then [Resize(s.server.Offset(), cols, rows, s.server.resizeRevision + 1)] else [])
    && t.server.resizeRevision == s.server.resizeRevision + (if succeeded then 1 else 0)
    && !t.server.resizing && s.server.bytes <= t.server.bytes
  }

  lemma {:induction false} RecordedStep(s: System, cols: nat, rows: nat, succeeded: bool)
    requires 1 <= s.config.wireChunk && s.server.resizing && s.server.barrier == s.server.Offset()
    requires 1 <= cols <= 1000 && 1 <= rows <= 1000
    ensures Recorded(s, Step(s, ResizeEnd(cols, rows, succeeded)), cols, rows, succeeded)
  {
    hide FlushDeferred;
    hide Release;
    var t := if succeeded then AnnounceResize(s, cols, rows) else s;
    FlushSame(t);
    ReleaseKept(t);
    ReleaseGrows(BooksOf(t.server));
    assert s.server.resizes + [] == s.server.resizes;
  }

  /** In every run a resize that ends is recorded exactly when it succeeded, with the next revision. */
  lemma {:induction false} ResizeIsRecordedIff(s0: System, actions: seq<Action>, cols: nat, rows: nat, succeeded: bool)
    requires Initial(s0) && s0.resizesBefore <= |s0.server.resizes|
    ensures var s := Run(s0, actions);
            s.server.resizing && 1 <= cols <= 1000 && 1 <= rows <= 1000 ==>
              Recorded(s, Step(s, ResizeEnd(cols, rows, succeeded)), cols, rows, succeeded)
  {
    TerminalVtRuns.InitialTracked(s0);
    TerminalVtRuns.RunTracked(s0, actions);
    hide Run;
    hide Recorded;
    hide Step;
    var s := Run(s0, actions);
    if s.server.resizing && 1 <= cols <= 1000 && 1 <= rows <= 1000 { RecordedStep(s, cols, rows, succeeded); }
  }

  lemma {:induction false} ReleaseGrows(b: Books)
    ensures b.committed <= Release(b).committed && !Release(b).resizing
  {
  }

  // ----- Who may resume -----

  /** The lease heard of every resize there was. */
  predicate HeardOfAll(s: System) {
    forall i :: 0 <= i < |s.server.resizes| ==> s.server.resizes[i].revision <= s.leaseResize
  }

  /** The client asks for output that is still retained, with the server's parser. It comes either without lease
      and epoch to a terminal that was never resized, for the output from its start; or under a lease that heard
      of every resize, from the offset the lease acknowledged, which it counts in the server's epoch. */
  predicate MayResume(s: System) {
    && s.hello.vt && s.hello.fingerprint == s.config.fingerprint
    && s.server.Oldest() <= s.hello.resume <= s.server.Offset()
    && match s.hello.inputLease
       case None => s.hello.epoch.None? && s.hello.resume == 0 && s.server.resizes == []
       case Some(_) =>
         && HeardOfAll(s) && s.hello.resume == s.leaseOutput
         && (s.hello.epoch == Some(s.config.epoch) || (s.hello.epoch.None? && s.hello.resume == 0))
  }

  /** The first packet said after `c`, sent or handed to a blocked stream. */
  predicate FirstSaid(c: Conn, d: Conn, m: Down) {
    if c.blocked then c.lost + [m] <= d.lost else c.wire + [m] <= d.wire
  }

  lemma {:induction false} MayResumeIff(s: System)
    requires Counted(s)
    ensures CanReplay(s.hello, TermsFor(s), s.config) <==> MayResume(s)
  {
    hide ReplayAfter;
    if s.server.resizes != [] { assert s.server.resizes[|s.server.resizes| - 1].revision == s.server.resizeRevision; }
  }

  function WelcomeOf(s: System, mode: Mode): Down { Welcome(mode, s.server.resizeRevision, s.config.epoch) }

  /** The packet that `SayWelcome` sends comes before all others. */
  lemma {:induction false} SaidFirst(s: System, t: System, m: Down, told: TerminalVt.Told)
    requires s.conn.open && TerminalVt.Says(s.conn.Send(m).(initialized := true), t.conn, told)
    ensures FirstSaid(s.conn, t.conn, m)
  {
  }

  lemma {:induction false} WelcomeSaid(s: System)
    requires ServerOk(s.server, s.config) && s.conn.open && !s.conn.initialized
    ensures var t := Step(s, ReceiveHello);
            t.conn.initialized ==>
              FirstSaid(s.conn, t.conn, WelcomeOf(s, if CanReplay(s.hello, TermsFor(s), s.config) then Vt else Semantic))
  {
    hide Conn.Initialize;
    var terms, told := TermsFor(s), TerminalVt.Told(s.server.bytes, s.server.exit);
    var replay := CanReplay(s.hello, terms, s.config);
    if replay {
      TerminalReplay.ReplayIsExact(s.server.chunks, s.server.bytes, s.server.Oldest(), s.config.wireChunk,
                                   s.hello.resume);
    }
    TerminalVt.InitializeSays(s.conn, s.hello, terms, s.config, told);
    var t, m := Step(s, ReceiveHello), WelcomeOf(s, if replay then Vt else Semantic);
    if t.conn.initialized { SaidFirst(s, t, m, told); }
  }

  /** What a connection is after its hello. */
  lemma {:induction false} InitializeForm(c: Conn, hello: Hello, terms: Terms, config: Config)
    requires c.open && !c.initialized && c.gridInFlight.None? && c.gridAcked.None?
    ensures var d, replay := c.Initialize(hello, terms, config), CanReplay(hello, terms, config);
            && (d.initialized <==> hello.credit >= config.wireChunk && (replay || hello.grid))
            && (!d.initialized ==> !d.open)
            && (d.initialized ==> d.credit == Min(hello.credit, config.maxUnacknowledged) && d.gridCapable == hello.grid)
            && (d.initialized && replay ==> d.acked == hello.resume)
            && (d.initialized && !replay ==>
                  && d.mode == Semantic
                  && (d.open <==> terms.grid.Some? && terms.grid.value.covers >= terms.offset)
                  && (d.open ==> d.gridInFlight == terms.grid))
  {
    hide Conn.Replay;
    hide Conn.MaybeSendExit;
    hide CanReplay;
    var replay := CanReplay(hello, terms, config);
    var b := c.(gridCapable := hello.grid, credit := Min(hello.credit, config.maxUnacknowledged));
    var mode := if replay then Vt else Semantic;
    var d := b.(mode := mode, acked := if replay then hello.resume else 0)
              .Send(Welcome(mode, terms.resizeRevision, config.epoch)).(initialized := true);
    if hello.credit >= config.wireChunk && (replay || hello.grid) {
      if replay {
        ReplayStays(d, terms, config);
      } else if terms.grid.Some? && terms.grid.value.covers >= terms.offset {
        ExitStays(d.SendKeyframe(terms.grid.value), terms.exit, terms.grid);
      }
    }
  }

  lemma {:induction false} ReplayStays(c: Conn, terms: Terms, config: Config)
    requires c.initialized
    ensures var d := c.Replay(terms, config);
            d.initialized && d.acked == c.acked && d.credit == c.credit && d.gridCapable == c.gridCapable
  {
    hide Conn.PublishAll;
    hide Conn.SwitchToGrid;
    hide Conn.MaybeSendExit;
  }

  lemma {:induction false} ExitStays(c: Conn, exit: Option<nat>, grid: Option<Grid>)
    requires c.initialized && c.mode == Semantic && c.gridInFlight.Some? && c.gridAcked.None?
    ensures var d := c.MaybeSendExit(exit, grid); d == c
  {
  }

  /** In every run: the hello is refused for too little credit, or when the client may not resume and takes no
      grid. Otherwise the first thing the client is told is its welcome, in VT mode exactly when it may resume;
      then its output is counted from there. In grid mode the connection goes on exactly when there is a grid
      that covers all the output, and that grid is sent. */
  lemma {:induction false} WelcomedIff(s0: System, actions: seq<Action>)
    requires Initial(s0) && Counted(s0) && s0.resizesBefore <= |s0.server.resizes|
    ensures var s := Run(s0, actions);
            var t := Step(s, ReceiveHello);
            s.conn.open && !s.conn.initialized && s.client.open ==>
              && (t.conn.initialized <==> s.hello.credit >= s.config.wireChunk && (MayResume(s) || s.hello.grid))
              && (!t.conn.initialized ==> !t.conn.open)
              && (t.conn.initialized ==>
                    && FirstSaid(s.conn, t.conn, WelcomeOf(s, if MayResume(s) then Vt else Semantic))
                    && t.conn.credit == Min(s.hello.credit, s.config.maxUnacknowledged)
                    && (MayResume(s) ==> t.conn.acked == s.hello.resume))
              && (t.conn.initialized && !MayResume(s) ==>
                    && t.conn.mode == Semantic
                    && (t.conn.open <==> s.server.grid.Some? && s.server.grid.value.covers >= s.server.Offset())
                    && (t.conn.open ==> t.conn.gridInFlight == s.server.grid))
  {
    TerminalVtRuns.InitialTracked(s0);
    TerminalVtRuns.RunTracked(s0, actions);
    RunCounted(s0, actions);
    TerminalGridRuns.InitialTracked(s0);
    TerminalGridRuns.RunTracked(s0, actions);
    hide Run;
    var s := Run(s0, actions);
    if s.conn.open && !s.conn.initialized && s.client.open {
      hide Conn.Initialize;
      MayResumeIff(s);
      WelcomeSaid(s);
      NothingInFlight(s);
      InitializeForm(s.conn, s.hello, TermsFor(s), s.config);
      hide TerminalVtRuns.VtTracked;
      hide TerminalGridRuns.Tracked;
      hide CanReplay;
      hide MayResume;
      hide FirstSaid;
    }
  }

  lemma {:induction false} NothingInFlight(s: System)
    requires TerminalGridRuns.Tracked(s) && s.conn.open && s.client.open && !s.conn.initialized
    ensures s.conn.gridInFlight.None? && s.conn.gridAcked.None?
  {
  }

  /** A welcomed client counts its output in the server's epoch, from the start of it if it came from another. */
  lemma {:induction false} ClientKnowsEpoch(s0: System, actions: seq<Action>)
    requires Initial(s0) && s0.resizesBefore <= |s0.server.resizes|
    ensures var s := Run(s0, actions);
            s.client.open && s.client.ready ==>
              && s.client.epoch == Some(s.config.epoch)
              && (s.hello.epoch.Some? && s.hello.epoch != s.client.epoch ==> s.client.applied == 0)
  {
    TerminalVtRuns.InitialTracked(s0);
    TerminalVtRuns.RunTracked(s0, actions);
    hide Run;
    assert TerminalVtRuns.EpochKnown(Run(s0, actions)) || !Run(s0, actions).client.open;
  }
}
