/** A run in which a grid that a client is to be given is forgotten (`#flushPendingVt`, RemoteTerminalProtocolServer.ts). */
module TerminalForgottenGrid {
  import opened Basics
  import opened Grids
  import opened TerminalState
  import opened TerminalSystem
  import opened TerminalFallback

  const TIGHT := Config("e", "f", 4, 4, 4, 4)
  const CLIENT := Hello(true, true, 4, None, None, "f", 0)
  const FRESH := Server([], [], 0, None, 0, false, 0, [], 0, None, [], [], [], 0)
  const JOINING := System(TIGHT, CLIENT, 0, 0, FRESH, Attached(true, 9), NewClient(None, 0), 0)
  const HELLO_BACK := Welcome(Vt, 0, "e")
  const JOINED := Attached(true, 8).(initialized := true, gridCapable := true, credit := 4, wire := [HELLO_BACK])
  const ONE := Chunk(0, [1])
  const MORE := Chunk(1, [2, 3, 4, 5])
  const LATE_GRID := Grid(80, 5, None, [], 1, [], 0, [], "", 0)

  lemma {:induction false} RunCons(s: System, a: Action, rest: seq<Action>)
    requires 1 <= s.config.wireChunk
    ensures Run(s, [a] + rest) == Run(Step(s, a), rest)
  {
    hide Step;
    assert ([a] + rest)[1..] == rest;
  }

  lemma {:induction false} RunNone(s: System)
    requires 1 <= s.config.wireChunk
    ensures Run(s, []) == s
  {
  }

  lemma {:induction false} JoiningIsInitial()
    ensures Initial(JOINING)
  {
    assert JOINING.conn == Attached(true, JOINING.conn.room);
  }

  lemma {:induction false} JoinsVt()
    ensures Step(JOINING, ReceiveHello) == JOINING.(conn := JOINED)
  {
    var terms := TermsFor(JOINING);
    var c := JOINING.conn.(gridCapable := true, credit := 4).(mode := Vt, acked := 0);
    var d := c.Send(HELLO_BACK).(initialized := true);
    assert d == JOINED;
    assert terms.replay == [] && d.Replay(terms, TIGHT) == d;
  }

  const FIRST_SENT := JOINED.(wire := [HELLO_BACK, Output(1, [1])], maxSent := 1, room := 7)
  const WITH_ONE := FRESH.(bytes := [1], chunks := [ONE], replayBytes := 1)

  lemma {:induction false} FirstFits()
    ensures Step(JOINING.(conn := JOINED), PublishOutput([1])) == JOINING.(conn := FIRST_SENT, server := WITH_ONE)
  {
    assert Split(0, [1], 4) == [ONE];
    assert CommitChunks(FRESH, [ONE], 4) == CommitChunks(CommitChunk(FRESH, ONE, 4), [], 4);
    assert JOINED.PublishAll([ONE], None, 4) == JOINED.PublishOutput(ONE, None, 4).PublishAll([], None, 4);
    assert [HELLO_BACK] + [Output(1, [1])] == [HELLO_BACK, Output(1, [1])];
  }

  lemma {:induction false} SecondAwaits(s: System)
    requires s == JOINING.(conn := FIRST_SENT, server := WITH_ONE)
    ensures var t := Step(s, PublishOutput([2, 3, 4, 5]));
            t == s.(conn := FIRST_SENT.(needsGrid := Some(5)), server := t.server)
            && t.server.bytes == [1, 2, 3, 4, 5] && t.server.exit.None? && !t.server.resizing && t.server.grid.None?
            && t.server.gridRevision == 0
  {
    assert Split(1, [2, 3, 4, 5], 4) == [MORE];
    assert CommitChunks(WITH_ONE, [MORE], 4) == CommitChunks(CommitChunk(WITH_ONE, MORE, 4), [], 4);
    assert [1] + [2, 3, 4, 5] == [1, 2, 3, 4, 5];
    assert FIRST_SENT.PublishAll([MORE], None, 4) == FIRST_SENT.PublishOutput(MORE, None, 4).PublishAll([], None, 4);
  }

  lemma {:induction false} ClientHears(s: System)
    requires s.config == TIGHT && s.client == NewClient(None, 0) && s.conn == FIRST_SENT.(needsGrid := Some(5))
    ensures var t := Step(Step(s, ClientReceive), ClientReceive);
            && t == s.(conn := s.conn.(wire := []), client := t.client)
            && t.client.open && t.client.mode == Vt && t.client.applied == 1
            && t.client.up == [ResizeApplied(0), OutputAck(1)]
  {
    var t := Step(s, ClientReceive);
    assert t.client.up == [ResizeApplied(0)];
    assert [ResizeApplied(0)] + [OutputAck(1)] == [ResizeApplied(0), OutputAck(1)];
    assert s.conn.wire[1..] == [Output(1, [1])] && [Output(1, [1])][1..] == [];
  }

  lemma {:induction false} ServerForgets(s: System)
    requires s.config == TIGHT && s.conn == FIRST_SENT.(needsGrid := Some(5), wire := []) && s.server.exit.None?
    requires s.client.up == [ResizeApplied(0), OutputAck(1)]
    ensures var t := Step(Step(s, ServerReceive), ServerReceive);
            t == s.(conn := FIRST_SENT.(wire := [], acked := 1), client := s.client.(up := []))
  {
    assert s.client.up[1..] == [OutputAck(1)] && [OutputAck(1)][1..] == [];
  }

  lemma {:induction false} GridIsIgnored(s: System)
    requires s.config == TIGHT && s.conn == FIRST_SENT.(wire := [], acked := 1) && s.server.exit.None?
    requires !s.server.resizing && |s.server.bytes| == 5 && s.server.gridRevision == 0
    ensures var t := Step(s, PublishGrid(LATE_GRID, 1));
            t.conn == s.conn && t.client == s.client && t.server.grid == Some(LATE_GRID) && t.server.bytes == s.server.bytes
  {
  }

  const ENDS := [ServerReceive] + ([ServerReceive] + ([PublishGrid(LATE_GRID, 1)] + []))

  lemma {:induction false} GridGoesUnsent(d: System) returns (s: System)
    requires d.config == TIGHT && d.conn == FIRST_SENT.(needsGrid := Some(5), wire := []) && d.server.exit.None?
    requires d.client.up == [ResizeApplied(0), OutputAck(1)]
    requires !d.server.resizing && |d.server.bytes| == 5 && d.server.gridRevision == 0
    ensures s == Run(d, ENDS) && s.conn == FIRST_SENT.(wire := [], acked := 1)
    ensures s.client == d.client.(up := []) && s.server.grid == Some(LATE_GRID) && s.server.bytes == d.server.bytes
  {
    hide Step;
    hide Run;
    ServerForgets(d);
    var e := Step(Step(d, ServerReceive), ServerReceive);
    GridIsIgnored(e);
    s := Step(e, PublishGrid(LATE_GRID, 1));
    RunNone(s);
    RunCons(e, PublishGrid(LATE_GRID, 1), []);
    RunCons(Step(d, ServerReceive), ServerReceive, [PublishGrid(LATE_GRID, 1)] + []);
    RunCons(d, ServerReceive, [ServerReceive] + ([PublishGrid(LATE_GRID, 1)] + []));
  }

  /** Nothing is lost, blocked or outstanding and the server's grid covers all output, of which the client, still
      in VT mode, has only the first byte. */
  predicate Forgotten(s: System) {
    && Falling(s) && !s.conn.blocked && s.conn.wire == [] && s.client.up == [] && s.conn.lost == []
    && s.server.grid.Some? && s.server.grid.value.covers == s.server.Offset() == 5 && s.client.applied == 1
  }

  const HEARS := [ClientReceive] + ([ClientReceive] + ENDS)

  lemma {:induction false} OutputArrives(c: System) returns (s: System)
    requires c.config == TIGHT && c.client == NewClient(None, 0) && c.conn == FIRST_SENT.(needsGrid := Some(5))
    requires c.server.exit.None? && !c.server.resizing && |c.server.bytes| == 5 && c.server.gridRevision == 0
    ensures s == Run(c, HEARS) && Forgotten(s)
  {
    hide Step;
    hide Run;
    ClientHears(c);
    s := GridGoesUnsent(Step(Step(c, ClientReceive), ClientReceive));
    RunCons(Step(c, ClientReceive), ClientReceive, ENDS);
    RunCons(c, ClientReceive, [ClientReceive] + ENDS);
  }

  /** Output does not fit, a grid is awaited, an acknowledgement of earlier output arrives, and the grid that
      covers everything then is not sent. */
  lemma {:induction false} AckForgetsGrid() returns (actions: seq<Action>, s: System)
    ensures Initial(JOINING) && s == Run(JOINING, actions) && Forgotten(s)
  {
    hide Step;
    hide Run;
    hide Initial;
    hide Forgotten;
    hide ServerOk;
    JoiningIsInitial();
    JoinsVt();
    FirstFits();
    var a := JOINING.(conn := JOINED);
    var b := JOINING.(conn := FIRST_SENT, server := WITH_ONE);
    SecondAwaits(b);
    s := OutputArrives(Step(b, PublishOutput([2, 3, 4, 5])));
    RunCons(b, PublishOutput([2, 3, 4, 5]), HEARS);
    RunCons(a, PublishOutput([1]), [PublishOutput([2, 3, 4, 5])] + HEARS);
    RunCons(JOINING, ReceiveHello, [PublishOutput([1])] + ([PublishOutput([2, 3, 4, 5])] + HEARS));
    actions := [ReceiveHello] + ([PublishOutput([1])] + ([PublishOutput([2, 3, 4, 5])] + HEARS));
  }
}
