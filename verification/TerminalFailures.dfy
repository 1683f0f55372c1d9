/**
 * Two runs in which a packet handed to a blocked stream leaves a VT client wrong for good: a resize it
 * never hears of, and output it never gets while the process stays paused for it. In a third nothing is
 * lost, and a client that resumed at the end of the output is never told of the exit.
 */
module TerminalFailures {
  import opened Basics
  import opened Grids
  import opened TerminalState
  import opened TerminalSystem
  import opened TerminalVtRuns
  import opened TerminalTimeline
  import opened TerminalCredit
  import opened TerminalCreditRuns

  const SMALL_CONFIG := Config("e", "f", 4, 4, 4, 4)
  const VT_HELLO := Hello(false, true, 4, None, None, "f", 0)
  const WELCOME := Welcome(Vt, 0, "e")
  const NEW_SERVER := Server([], [], 0, None, 0, false, 0, [], 0, None, [], [], [], 0)

  /** A writer that shows only VT output attaches to a fresh terminal over a stream that is already full. */
  const VT_WRITER := System(SMALL_CONFIG, VT_HELLO, 0, 0, NEW_SERVER, Attached(true, 0), NewClient(None, 0), 0)

  /** Its connection once the welcome has filled the stream. */
  const WELCOMED := Attached(true, 0).(initialized := true, blocked := true, credit := 4, wire := [WELCOME])

  lemma {:induction false} RunStep(s: System, a: Action, rest: seq<Action>)
    requires 1 <= s.config.wireChunk
    ensures Run(s, [a] + rest) == Run(Step(s, a), rest)
  {
    hide Step;
    assert ([a] + rest)[1..] == rest;
  }

  lemma {:induction false} WriterIsInitial()
    ensures Initial(VT_WRITER)
  {
    assert VT_WRITER.conn == Attached(true, VT_WRITER.conn.room);
  }

  lemma {:induction false} WriterWelcomed()
    ensures Step(VT_WRITER, ReceiveHello) == VT_WRITER.(conn := WELCOMED)
  {
    var terms := TermsFor(VT_WRITER);
    var c := VT_WRITER.conn.(gridCapable := false, credit := 4).(mode := Vt, acked := 0);
    var d := c.Send(WELCOME).(initialized := true);
    assert d == WELCOMED;
    assert terms.replay == [] && d.Replay(terms, SMALL_CONFIG) == d;
  }

  // ----- A resize that is never announced -----

  const RESIZE := Resize(0, 100, 30, 1)

  lemma {:induction false} ResizeDropped(s: System)
    requires s == VT_WRITER.(conn := WELCOMED)
    ensures Step(Step(s, ResizeBegin), ResizeEnd(100, 30, true))
         == s.(server := NEW_SERVER.(resizes := [RESIZE], resizeRevision := 1),
               conn := WELCOMED.(lost := [Resized(RESIZE)]))
  {
    var t := Step(s, ResizeBegin);
    assert t == s.(server := NEW_SERVER.(resizing := true));
    var u := AnnounceResize(t, 100, 30);
    assert u == s.(server := NEW_SERVER.(resizing := true, resizes := [RESIZE], resizeRevision := 1),
                   conn := WELCOMED.(lost := [Resized(RESIZE)]));
    assert CommitOutputs(u.(server := u.server.(resizing := false)), []) == u.(server := u.server.(resizing := false));
  }

  lemma {:induction false} OutputAfter(s: System)
    requires s.config == SMALL_CONFIG && s.server == NEW_SERVER.(resizes := [RESIZE], resizeRevision := 1)
    requires s.conn == WELCOMED.(blocked := false, lost := [Resized(RESIZE)])
    ensures Step(s, PublishOutput([7]))
         == s.(server := s.server.(bytes := [7], chunks := [Chunk(0, [7])], replayBytes := 1),
               conn := s.conn.(wire := [WELCOME, Output(1, [7])], maxSent := 1, blocked := true))
  {
    assert Split(0, [7], 4) == [Chunk(0, [7])];
    var c := Chunk(0, [7]);
    var kept := [c];
    assert NEW_SERVER.chunks + [c] == kept && NEW_SERVER.bytes + [7] == [7];
    assert CommitChunk(s.server, c, 4) == s.server.(bytes := [7], chunks := kept, replayBytes := 1);
    assert CommitChunks(s.server, [c], 4) == CommitChunks(CommitChunk(s.server, c, 4), [], 4);
    assert s.conn.PublishAll([c], None, 4) == s.conn.PublishOutput(c, None, 4).PublishAll([], None, 4);
    assert s.conn.PublishOutput(c, None, 4) == s.conn.SendOutput(c);
  }

  lemma {:induction false} BothDelivered(s: System)
    requires s.config == SMALL_CONFIG && s.client == NewClient(None, 0)
    requires s.conn.wire == [WELCOME, Output(1, [7])]
    ensures var t := Step(Step(s, ClientReceive), ClientReceive);
            && t.client.open && t.client.ready && t.client.mode == Vt && t.client.display == [Shown(7)]
            && t.client.resizes == [] && t.client.applied == 1
            && t.conn == s.conn.(wire := []) && t.server == s.server && t.hello == s.hello
            && t.resizesBefore == s.resizesBefore
  {
    var t := Step(s, ClientReceive);
    assert t.conn.wire == [Output(1, [7])];
    assert t.client.display + ShownAll([7]) == [Shown(7)];
  }

  lemma {:induction false} ResizeRunEnds() returns (actions: seq<Action>, s: System)
    ensures s == Run(VT_WRITER, actions)
    ensures s.client.display == [Shown(7)] && Attending(s)
    ensures s.hello.resume == 0 <= s.server.Offset() && s.server.bytes == [7]
    ensures Truth(s) == [RESIZE] && s.client.resizes == [] && s.client.applied == 1
    ensures s.conn.lost == [Resized(RESIZE)]
  {
    hide Step;
    hide Run;
    var a := VT_WRITER.(conn := WELCOMED);
    WriterWelcomed();
    ResizeDropped(a);
    var b := Step(a, ResizeBegin);
    var c := Step(b, ResizeEnd(100, 30, true));
    DrainsClear(c);
    var d := Step(c, Drain);
    OutputAfter(d);
    var e := Step(d, PublishOutput([7]));
    BothDelivered(e);
    var f := Step(e, ClientReceive);
    s := Step(f, ClientReceive);
    RunNothing(s);
    RunStep(f, ClientReceive, []);
    RunStep(e, ClientReceive, [ClientReceive] + []);
    RunStep(d, PublishOutput([7]), [ClientReceive] + ([ClientReceive] + []));
    RunStep(c, Drain, [PublishOutput([7])] + ([ClientReceive] + ([ClientReceive] + [])));
    RunStep(b, ResizeEnd(100, 30, true),
            [Drain] + ([PublishOutput([7])] + ([ClientReceive] + ([ClientReceive] + []))));
    RunStep(a, ResizeBegin, [ResizeEnd(100, 30, true)]
            + ([Drain] + ([PublishOutput([7])] + ([ClientReceive] + ([ClientReceive] + [])))));
    var rest := [ResizeBegin] + ([ResizeEnd(100, 30, true)]
            + ([Drain] + ([PublishOutput([7])] + ([ClientReceive] + ([ClientReceive] + [])))));
    RunStep(VT_WRITER, ReceiveHello, rest);
    actions := [ReceiveHello] + rest;
  }

  lemma {:induction false} RunNothing(s: System)
    requires 1 <= s.config.wireChunk
    ensures Run(s, []) == s
  {
  }

  lemma {:induction false} DrainsClear(s: System)
    requires 1 <= s.config.wireChunk && s.conn.open && s.conn.pendingGrid.None?
    ensures Step(s, Drain) == s.(conn := s.conn.(blocked := false))
  {
  }

  lemma {:induction false} MissesResize(s: System)
    requires s.hello.resume == 0 <= s.server.Offset() && s.server.bytes == [7] && Truth(s) == [RESIZE]
    requires s.client.resizes == [] && s.client.applied == 1 && s.conn.lost == [Resized(RESIZE)]
    ensures Committed(s) == [Reshaped(RESIZE), Shown(7)] && Skipped(s, RESIZE)
  {
    hide Truth;
    assert s.server.bytes[0..] == [7];
    assert Timeline([7], 0, []) == [Shown(7)] + Timeline([], 1, []);
    assert Timeline([7], 0, [RESIZE]) == [Reshaped(RESIZE)] + Timeline([7], 0, []);
    assert s.conn.lost[0] == Resized(RESIZE) && Truth(s)[0] == RESIZE;
  }

  /** The display is not always a prefix of what was committed: here the client shows output that came
      after a resize it was never told of. */
  lemma {:induction false} BlockedResizeIsSkipped() returns (actions: seq<Action>, s: System)
    ensures Attending(s) && s.client.display == [Shown(7)] && s.hello.resume <= s.server.Offset()
    ensures Committed(s) == [Reshaped(RESIZE), Shown(7)] && Skipped(s, RESIZE)
    ensures s == Run(VT_WRITER, actions) && Initial(VT_WRITER)
  {
    hide *;
    WriterIsInitial();
    actions, s := ResizeRunEnds();
    MissesResize(s);
  }

  // ----- Output that is never sent while the process is paused for it -----

  const FIRST := Chunk(0, [7])
  const SECOND := Chunk(1, [1, 2, 3, 4])

  lemma {:induction false} FirstDropped(s: System)
    requires s == VT_WRITER.(conn := WELCOMED)
    ensures Step(s, PublishOutput([7]))
         == s.(server := NEW_SERVER.(bytes := [7], chunks := [FIRST], replayBytes := 1),
               conn := WELCOMED.(lost := [Output(1, [7])], maxSent := 1))
  {
    assert Split(0, [7], 4) == [FIRST];
    assert NEW_SERVER.chunks + [FIRST] == [FIRST] && NEW_SERVER.bytes + [7] == [7];
    assert CommitChunk(s.server, FIRST, 4) == s.server.(bytes := [7], chunks := [FIRST], replayBytes := 1);
    assert CommitChunks(s.server, [FIRST], 4) == CommitChunks(CommitChunk(s.server, FIRST, 4), [], 4);
    assert s.conn.PublishAll([FIRST], None, 4) == s.conn.PublishOutput(FIRST, None, 4).PublishAll([], None, 4);
    assert s.conn.PublishOutput(FIRST, None, 4) == s.conn.SendOutput(FIRST);
  }

  lemma {:induction false} SecondQueued(s: System)
    requires s == VT_WRITER.(server := NEW_SERVER.(bytes := [7], chunks := [FIRST], replayBytes := 1),
                             conn := WELCOMED.(lost := [Output(1, [7])], maxSent := 1))
    ensures Step(s, PublishOutput([1, 2, 3, 4])).conn
         == s.conn.(needsGrid := Some(5), pendingVt := [SECOND], pendingBytes := 4, paused := true)
    ensures Step(s, PublishOutput([1, 2, 3, 4])).server.Offset() == 5
    ensures Step(s, PublishOutput([1, 2, 3, 4])).client == s.client
    ensures Step(s, PublishOutput([1, 2, 3, 4])).config == SMALL_CONFIG
  {
    var t := Step(s, PublishOutput([1, 2, 3, 4]));
    assert Split(1, [1, 2, 3, 4], 4) == [SECOND];
    assert CommitChunks(s.server, [SECOND], 4) == CommitChunks(CommitChunk(s.server, SECOND, 4), [], 4);
    assert s.conn.PublishAll([SECOND], None, 4) == s.conn.PublishOutput(SECOND, None, 4).PublishAll([], None, 4);
  }

  lemma {:induction false} OnlyWelcomeDelivered(s: System)
    requires s.config == SMALL_CONFIG && s.client == NewClient(None, 0)
    requires s.conn.open && s.conn.initialized && s.conn.wire == [WELCOME]
    ensures var t := Step(Step(s, ClientReceive), ServerReceive);
            && t.client.open && t.client.up == [] && t.client.applied == 0
            && t.conn == s.conn.(wire := []) && t.server == s.server
  {
    var t := Step(s, ClientReceive);
    assert t.client.up == [ResizeApplied(0)];
  }

  lemma {:induction false} StallRunEnds() returns (actions: seq<Action>, s: System)
    ensures s == Run(VT_WRITER, actions)
    ensures Flowing(s) && s.conn.wire == [] && s.client.up == [] && s.conn.paused && s.conn.pendingVt == [SECOND]
    ensures !s.conn.blocked && s.client.applied == 0 && s.server.Offset() == 5
  {
    hide Step;
    hide Run;
    var a := VT_WRITER.(conn := WELCOMED);
    WriterWelcomed();
    FirstDropped(a);
    var b := Step(a, PublishOutput([7]));
    SecondQueued(b);
    var c := Step(b, PublishOutput([1, 2, 3, 4]));
    DrainsClear(c);
    var d := Step(c, Drain);
    OnlyWelcomeDelivered(d);
    var e := Step(d, ClientReceive);
    s := Step(e, ServerReceive);
    RunNothing(s);
    RunStep(e, ServerReceive, []);
    RunStep(d, ClientReceive, [ServerReceive] + []);
    RunStep(c, Drain, [ClientReceive] + ([ServerReceive] + []));
    RunStep(b, PublishOutput([1, 2, 3, 4]), [Drain] + ([ClientReceive] + ([ServerReceive] + [])));
    RunStep(a, PublishOutput([7]),
            [PublishOutput([1, 2, 3, 4])] + ([Drain] + ([ClientReceive] + ([ServerReceive] + []))));
    var rest := [PublishOutput([7])]
            + ([PublishOutput([1, 2, 3, 4])] + ([Drain] + ([ClientReceive] + ([ServerReceive] + []))));
    RunStep(VT_WRITER, ReceiveHello, rest);
    actions := [ReceiveHello] + rest;
  }

  /** Credit flow control can deadlock: the stream is free, nothing is on its way in either direction, and
      the process is paused for a client that has nothing to acknowledge. */
  lemma {:induction false} BlockedOutputStalls() returns (actions: seq<Action>, s: System)
    ensures Initial(VT_WRITER) && s == Run(VT_WRITER, actions)
    ensures Flowing(s) && !s.conn.blocked && s.conn.wire == [] && s.client.up == []
    ensures s.conn.paused && s.client.applied < s.server.Offset()
  {
    hide Run;
    WriterIsInitial();
    actions, s := StallRunEnds();
  }

  // ----- An exit that is never sent -----

  const ONE_BYTE := NEW_SERVER.(bytes := [7], chunks := [FIRST], replayBytes := 1)

  /** A viewer resumes its lease at the end of the output, over a stream with room. */
  const RESUMING := System(SMALL_CONFIG, Hello(false, true, 4, Some("e"), Some("l"), "f", 1), 1, 0, ONE_BYTE,
                           Attached(true, 9), NewClient(Some("e"), 1), 0)

  const RESUMED := Attached(true, 8).(initialized := true, credit := 4, acked := 1, wire := [WELCOME])

  lemma {:induction false} ResumingIsInitial()
    ensures Initial(RESUMING)
  {
    assert RESUMING.conn == Attached(true, RESUMING.conn.room);
    assert [7][0..1] == [7] && [FIRST][1..] == [];
    assert Tiles([FIRST], [7], 0, 4);
  }

  lemma {:induction false} ResumingWelcomed()
    ensures Step(RESUMING, ReceiveHello) == RESUMING.(conn := RESUMED)
  {
    var terms := TermsFor(RESUMING);
    assert [FIRST][1..] == [];
    assert terms.replay == ReplayAfter([FIRST], 1) == ReplayAfter([], 1) == [];
    var c := RESUMING.conn.(gridCapable := false, credit := 4).(mode := Vt, acked := 1);
    var d := c.Send(WELCOME).(initialized := true);
    assert d == RESUMED;
    assert d.Replay(terms, SMALL_CONFIG) == d;
  }

  lemma {:induction false} ExitIsHeldBack()
    ensures Step(RESUMING.(conn := RESUMED), PublishExit)
         == RESUMING.(conn := RESUMED, server := ONE_BYTE.(exit := Some(1)))
  {
  }

  lemma {:induction false} ResumeDelivered(s: System)
    requires s == RESUMING.(conn := RESUMED, server := ONE_BYTE.(exit := Some(1)))
    ensures var t := Step(Step(s, ClientReceive), ServerReceive);
            && t.client.open && t.client.up == [] && t.client.applied == 1 && !t.client.exited
            && t.conn == s.conn.(wire := []) && t.server == s.server
  {
    var t := Step(s, ClientReceive);
    assert t.client.up == [ResizeApplied(0)];
  }

  /** Nothing is lost, blocked or outstanding, the client has all the output and the process has exited, but
      the client was not told and by TerminalCreditRuns.ExitIsSentIff never will be. */
  lemma {:induction false} ExitIsNeverSent() returns (actions: seq<Action>, s: System)
    ensures Initial(RESUMING) && s == Run(RESUMING, actions)
    ensures Flowing(s) && !s.conn.blocked && s.conn.lost == [] && s.conn.wire == [] && s.client.up == []
    ensures s.server.exit == Some(s.client.applied) == Some(s.server.Offset())
    ensures !s.conn.exitSent && !s.client.exited
  {
    hide Step;
    hide Run;
    ResumingIsInitial();
    ResumingWelcomed();
    ExitIsHeldBack();
    var a := RESUMING.(conn := RESUMED);
    var b := Step(a, PublishExit);
    ResumeDelivered(b);
    s := Step(Step(b, ClientReceive), ServerReceive);
    RunNothing(s);
    RunStep(Step(b, ClientReceive), ServerReceive, []);
    RunStep(b, ClientReceive, [ServerReceive] + []);
    RunStep(a, PublishExit, [ClientReceive] + ([ServerReceive] + []));
    RunStep(RESUMING, ReceiveHello, [PublishExit] + ([ClientReceive] + ([ServerReceive] + [])));
    actions := [ReceiveHello] + ([PublishExit] + ([ClientReceive] + ([ServerReceive] + [])));
  }
}
