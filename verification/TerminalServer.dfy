/**
 * The server and its connections as objects (RemoteTerminalProtocolServer.ts). Every method is proved to
 * take each attached connection through the step of TerminalSystem that it stands for.
 */
module TerminalServer {
  import opened Basics
  import opened Grids
  import opened TerminalState
  import opened TerminalSystem

  const ABSENT := Attached(false, 0).(open := false)

  /** Pause notifications alternate, starting with a pause. */
  predicate Alternating(calls: seq<bool>) {
    forall i :: 0 <= i < |calls| ==> calls[i] == (i % 2 == 0)
  }

  class ServerConnection {
    const server: ProtocolServer
    const mayWrite: bool
    var open: bool
    var initialized: bool
    var mode: Mode
    var blocked: bool
    var room: nat
    var gridCapable: bool
    var credit: nat
    var acked: nat
    var maxSent: nat
    var needsGrid: Option<nat>
    var pendingVt: seq<Chunk>
    var pendingBytes: int
    var gridAcked: Option<Grid>
    var gridInFlight: Option<Grid>
    var pendingGrid: Option<Grid>
    var exitSent: bool
    var wire: seq<Down>
    var lost: seq<Down>

    ghost function State(): Conn
      reads this, server`paused
    {
      Conn(open, initialized, mode, blocked, room, gridCapable, mayWrite, credit, acked, maxSent, needsGrid,
           pendingVt, pendingBytes, this in server.paused, gridAcked, gridInFlight, pendingGrid, exitSent,
           wire, lost)
    }

    /** Nothing but this connection's own membership changed in the server's pause bookkeeping. */
    twostate predicate FlowKept()
      reads server`paused, server`flowCalls
    {
      && server.FlowValid()
      && (forall c :: c in server.paused && c != this ==> c in old(server.paused))
      && (forall c :: c in old(server.paused) && c != this ==> c in server.paused)
      && (this in server.paused ==> mayWrite || this in old(server.paused))
      && old(server.flowCalls) <= server.flowCalls
    }

    constructor (server: ProtocolServer, mayWrite: bool, room: nat)
      requires server.FlowValid()
      ensures this.server == server && fresh(this)
      ensures this !in server.paused ==> State() == Attached(mayWrite, room)
    {
      this.server, this.mayWrite, this.room := server, mayWrite, room;
      open, initialized, mode, blocked, gridCapable := true, false, Vt, false, false;
      credit, acked, maxSent, needsGrid, pendingVt, pendingBytes := 0, 0, 0, None, [], 0;
      gridAcked, gridInFlight, pendingGrid, exitSent, wire, lost := None, None, None, false, [], [];
    }

    method Send(m: Down)
      modifies `wire, `lost, `blocked, `room
      ensures State() == old(State()).Send(m)
      ensures State() == old(State()).(wire := wire, lost := lost, blocked := blocked, room := room)
    {
      hide Conn.Grown;
      if !open {
        return;
      }
      if blocked {
        lost := lost + [m];
      } else {
        wire := wire + [m];
        blocked := room == 0;
        room := if room == 0 then 0 else room - 1;
      }
      assert State() == old(State()).(wire := wire, lost := lost, blocked := blocked, room := room);
    }

    method Pause(p: bool)
      requires server.FlowValid()
      modifies server`paused, server`flowCalls
      ensures State() == old(State()).SetFlowPaused(p) && FlowKept()
      ensures State() == old(State()).(paused := this in server.paused)
    {
      server.SetFlowPaused(this, p);
    }

    method Close()
      requires server.FlowValid()
      modifies this, server`paused, server`flowCalls
      ensures State() == old(State()).Close() && FlowKept()
    {
      if !open {
        return;
      }
      open := false;
      Pause(false);
    }

    method Fail()
      requires server.FlowValid()
      modifies this, server`paused, server`flowCalls
      ensures State() == old(State()).Fail() && FlowKept()
    {
      Send(Failure);
      Close();
    }

    method SendOutput(chunk: Chunk)
      modifies this
      ensures State() == old(State()).SendOutput(chunk)
      ensures State() == old(State()).(wire := wire, lost := lost, blocked := blocked, room := room, maxSent := maxSent)
    {
      hide Conn.Send;
      Send(Output(chunk.End(), chunk.data));
      maxSent := Max(maxSent, chunk.End());
    }

    method SendKeyframe(g: Grid)
      modifies this
      ensures State() == old(State()).SendKeyframe(g)
      ensures State() == old(State()).(wire := wire, lost := lost, blocked := blocked, room := room,
                                       gridInFlight := Some(g))
    {
      hide Conn.Send;
      Send(Keyframe(g));
      gridInFlight := Some(g);
    }

    method SendGrid(previous: Option<Grid>, g: Grid)
      modifies this
      ensures State() == old(State()).SendGrid(previous, g)
    {
      hide Conn.Send;
      hide Diff;
      var patch: Option<Patch> := None;
      if gridAcked.Some? && previous.Some? && previous.value.revision == gridAcked.value.revision {
        patch := DiffGridState(gridAcked.value, g);
      }
      if patch.None? {
        Send(Keyframe(g));
      } else {
        Send(GridPatch(patch.value));
      }
      gridInFlight := Some(g);
    }

    /** VT output still queued is given up: the grid that follows covers it. */
    method LeaveVt()
      requires server.FlowValid()
      modifies this`mode, this`needsGrid, this`pendingVt, this`pendingBytes, server`paused, server`flowCalls
      ensures State() == old(State()).(mode := Semantic, needsGrid := None, pendingVt := [], pendingBytes := 0)
                                     .SetFlowPaused(false)
      ensures FlowKept()
    {
      mode := Semantic;
      needsGrid := None;
      pendingVt := [];
      pendingBytes := 0;
      assert State() == old(State()).(mode := Semantic, needsGrid := None, pendingVt := [], pendingBytes := 0);
      Pause(false);
    }

    method SwitchToGrid(g: Grid)
      requires server.FlowValid()
      modifies this, server`paused, server`flowCalls
      ensures State() == old(State()).SwitchToGrid(g) && FlowKept()
    {
      hide Conn.Grown;
      hide Conn.Send;
      hide Conn.SendKeyframe;
      hide Conn.SetFlowPaused;
      if gridInFlight.Some? {
        pendingGrid := Some(g);
        assert State() == old(State()).(pendingGrid := Some(g));
      }
      LeaveVt();
      Send(ModeSwitch);
      if gridInFlight.None? {
        SendKeyframe(g);
      }
    }

    method PublishGrid(previous: Option<Grid>, next: Grid)
      requires server.FlowValid()
      modifies this, server`paused, server`flowCalls
      ensures State() == old(State()).PublishGrid(previous, next) && FlowKept()
    {
      if !initialized {
        return;
      }
      if needsGrid.Some? && gridCapable && next.covers >= needsGrid.value {
        SwitchToGrid(next);
        return;
      }
      if mode != Semantic {
        return;
      }
      if blocked || gridInFlight.Some? {
        pendingGrid := Some(next);
        return;
      }
      SendGrid(previous, next);
    }

    method QueueVt(chunk: Chunk)
      requires server.FlowValid()
      modifies this, server`paused, server`flowCalls
      ensures State() == old(State()).QueueVt(chunk, server.config.maxBuffered) && FlowKept()
    {
      if pendingBytes + |chunk.data| > server.config.maxBuffered {
        Fail();
        return;
      }
      pendingVt := pendingVt + [chunk];
      pendingBytes := pendingBytes + |chunk.data|;
    }

    method PublishOutput(chunk: Chunk)
      requires server.FlowValid()
      modifies this, server`paused, server`flowCalls
      ensures State() == old(State()).PublishOutput(chunk, server.grid, server.config.maxBuffered) && FlowKept()
    {
      hide Conn.QueueVt;
      hide Conn.SwitchToGrid;
      hide Conn.SendOutput;
      if !initialized || mode != Vt {
        return;
      }
      if needsGrid.Some? {
        needsGrid := Some(chunk.End());
        if !gridCapable {
          QueueVt(chunk);
        }
        return;
      }
      if chunk.End() - acked > credit {
        needsGrid := Some(chunk.End());
        if gridCapable {
          if server.grid.Some? && server.grid.value.covers >= chunk.End() {
            SwitchToGrid(server.grid.value);
          }
        } else {
          QueueVt(chunk);
          Pause(true);
        }
        return;
      }
      SendOutput(chunk);
    }

    method SendHead()
      requires |pendingVt| > 0
      modifies this
      ensures State() == old(State()).(pendingVt := old(pendingVt)[1..],
                                       pendingBytes := old(pendingBytes) - |old(pendingVt)[0].data|)
                                     .SendOutput(old(pendingVt)[0])
      ensures pendingVt == old(pendingVt)[1..]
    {
      hide Conn.SendOutput;
      var next := pendingVt[0];
      pendingVt := pendingVt[1..];
      pendingBytes := pendingBytes - |next.data|;
      assert State() == old(State()).(pendingVt := pendingVt, pendingBytes := pendingBytes);
      SendOutput(next);
    }

    method SendQueued()
      modifies this
      ensures State() == old(State()).SendQueued()
    {
      hide Conn.Grown;
      hide Conn.SendOutput;
      while |pendingVt| > 0
        invariant State().SendQueued() == old(State()).SendQueued()
        decreases |pendingVt|
      {
        if pendingVt[0].End() - acked > credit {
          break;
        }
        SendHead();
      }
    }

    /** Sends what fits the credit window, oldest first, and lets the process run once nothing is left. */
    method FlushPendingVt()
      requires server.FlowValid()
      modifies this, server`paused, server`flowCalls
      ensures State() == old(State()).FlushPendingVt() && FlowKept()
    {
      hide Conn.Grown;
      hide Conn.SendQueued;
      hide Conn.SetFlowPaused;
      SendQueued();
      if |pendingVt| == 0 {
        needsGrid := None;
        assert State() == old(State()).SendQueued().(needsGrid := None);
        Pause(false);
      }
    }

    method FlushGrid()
      modifies this
      ensures State() == old(State()).FlushGrid()
    {
      if pendingGrid.Some? && !blocked && gridInFlight.None? {
        var grid := pendingGrid.value;
        pendingGrid := None;
        SendKeyframe(grid);
      }
    }

    method Drain()
      modifies this
      ensures State() == old(State()).Drain()
    {
      blocked := false;
      FlushGrid();
    }

    method MaybeSendExit()
      modifies this
      ensures State() == old(State()).MaybeSendExit(server.exit, server.grid)
    {
      if server.exit.None? || exitSent || !initialized {
        return;
      }
      var exit := server.exit.value;
      if mode == Vt {
        if needsGrid.Some? || maxSent < exit {
          return;
        }
      } else if gridAcked.None? || gridAcked.value.covers < exit {
        if server.grid.Some? && server.grid.value.covers >= exit && gridInFlight.None? {
          SendKeyframe(server.grid.value);
        }
        return;
      }
      Send(Exit(exit));
      exitSent := true;
    }

    method OnOutputAck(offset: nat)
      requires server.FlowValid()
      modifies this, server`paused, server`flowCalls
      ensures State() == old(State()).OnOutputAck(offset, server.exit, server.grid) && FlowKept()
    {
      hide Conn.FlushPendingVt;
      hide Conn.MaybeSendExit;
      if offset < acked || offset > maxSent {
        Fail();
        return;
      }
      acked := offset;
      FlushPendingVt();
      MaybeSendExit();
    }

    method OnGridAck(revision: nat)
      requires server.FlowValid()
      modifies this, server`paused, server`flowCalls
      ensures State() == old(State()).OnGridAck(revision, server.exit, server.grid) && FlowKept()
    {
      hide Conn.FlushGrid;
      hide Conn.MaybeSendExit;
      if gridInFlight.None? || revision != gridInFlight.value.revision {
        Fail();
        return;
      }
      gridAcked := gridInFlight;
      gridInFlight := None;
      FlushGrid();
      MaybeSendExit();
    }

    method OnResync()
      requires server.FlowValid()
      modifies this, server`paused, server`flowCalls
      ensures State() == old(State()).OnResync(server.outputOffset, server.grid) && FlowKept()
    {
      if server.grid.None? || server.grid.value.covers < server.outputOffset {
        Fail();
        return;
      }
      SwitchToGrid(server.grid.value);
    }

    ghost function Terms(hello: Hello, leaseOutput: nat, leaseResize: nat): Terms
      reads server
    {
      TerminalState.Terms(leaseOutput, leaseResize, server.resizeRevision, server.OldestOutputOffset(),
                          server.outputOffset, server.grid, server.exit,
                          TerminalSystem.ReplayAfter(server.outputChunks, hello.resume))
    }

    method SayWelcome(replay: bool, resume: nat)
      modifies this
      ensures State() == old(State()).(mode := if replay then Vt else Semantic, acked := if replay then resume else 0)
                .Send(Welcome(if replay then Vt else Semantic, server.resizeRevision, server.config.epoch))
                .(initialized := true)
    {
      hide Conn.Send;
      mode := if replay then Vt else Semantic;
      acked := if replay then resume else 0;
      assert State() == old(State()).(mode := mode, acked := acked);
      Send(Welcome(mode, server.resizeRevision, server.config.epoch));
      initialized := true;
    }

    method Receive(m: Up, ghost base: System)
      requires server.FlowValid() && server.outputOffset == |server.bytes|
      modifies this, server`paused, server`flowCalls
      ensures State() == HandleUp(old(server.Seen(this, base)), m) && FlowKept()
    {
      hide Conn.OnOutputAck;
      hide Conn.OnGridAck;
      hide Conn.OnResync;
      match m
      case OutputAck(offset) => OnOutputAck(offset);
      case GridAck(revision) => OnGridAck(revision);
      case Resync => OnResync();
      case ResizeApplied(revision) =>
    }

    method Negotiate(hello: Hello)
      modifies this`gridCapable, this`credit
      ensures State() == old(State()).(gridCapable := hello.grid,
                                       credit := Min(hello.credit, server.config.maxUnacknowledged))
    {
      gridCapable := hello.grid;
      credit := Min(hello.credit, server.config.maxUnacknowledged);
    }

    method Initialize(hello: Hello, leaseOutput: nat, leaseResize: nat)
      requires server.FlowValid() && !initialized
      modifies this, server`paused, server`flowCalls
      ensures State() == old(State()).Initialize(hello, Terms(hello, leaseOutput, leaseResize), server.config)
      ensures FlowKept()
    {
      hide Conn.Grown;
      hide Conn.Send;
      hide Conn.Fail;
      hide Conn.Replay;
      hide Conn.SendKeyframe;
      hide Conn.MaybeSendExit;
      hide ReplayAfter;
      hide CanReplay;
      ghost var terms := Terms(hello, leaseOutput, leaseResize);
      Negotiate(hello);
      if hello.credit < server.config.wireChunk {
        Fail();
        return;
      }
      var canReplay := MayReplay(hello, leaseOutput, leaseResize);
      if !canReplay && !hello.grid {
        Fail();
        return;
      }
      Begin(hello, canReplay, terms);
    }

    /** The welcome, and what the client is shown after it. */
    method Begin(hello: Hello, canReplay: bool, ghost terms: TerminalState.Terms)
      requires server.FlowValid()
      requires terms.replay == TerminalSystem.ReplayAfter(server.outputChunks, hello.resume)
      requires terms.grid == server.grid && terms.exit == server.exit && terms.offset == server.outputOffset
      requires terms.resizeRevision == server.resizeRevision
      modifies this, server`paused, server`flowCalls
      ensures FlowKept()
      ensures var mode := if canReplay then Vt else Semantic;
              var d := old(State()).(mode := mode, acked := if canReplay then hello.resume else 0)
                         .Send(Welcome(mode, terms.resizeRevision, server.config.epoch)).(initialized := true);
              State() == if canReplay then d.Replay(terms, server.config)
                         else if terms.grid.None? || terms.grid.value.covers < terms.offset then d.Fail()
                         else d.SendKeyframe(terms.grid.value).MaybeSendExit(terms.exit, terms.grid)
    {
      hide Conn.Send;
      hide Conn.Replay;
      hide Conn.Fail;
      hide Conn.SendKeyframe;
      hide Conn.MaybeSendExit;
      SayWelcome(canReplay, hello.resume);
      if canReplay {
        Replay(hello, terms);
      } else {
        StartGrid();
      }
    }

    method StartGrid()
      requires server.FlowValid()
      modifies this, server`paused, server`flowCalls
      ensures State() == if server.grid.None? || server.grid.value.covers < server.outputOffset
                         then old(State()).Fail()
                         else old(State()).SendKeyframe(server.grid.value).MaybeSendExit(server.exit, server.grid)
      ensures FlowKept()
    {
      hide Conn.Grown;
      hide Conn.Fail;
      hide Conn.SendKeyframe;
      hide Conn.MaybeSendExit;
      if server.grid.None? || server.grid.value.covers < server.outputOffset {
        Fail();
      } else {
        SendKeyframe(server.grid.value);
        MaybeSendExit();
      }
    }

    method MayReplay(hello: Hello, leaseOutput: nat, leaseResize: nat) returns (can: bool)
      ensures can == CanReplay(hello, Terms(hello, leaseOutput, leaseResize), server.config)
    {
      var config := server.config;
      var epochMatches := (hello.epoch.None? && hello.resume == 0) || hello.epoch == Some(config.epoch);
      var freshReplay :=
        hello.inputLease.None? && hello.epoch.None? && hello.resume == 0 && server.resizeRevision == 0;
      var leasedReplay := hello.inputLease.Some? && epochMatches && hello.resume == leaseOutput
                          && leaseResize == server.resizeRevision;
      can := hello.vt && hello.fingerprint == config.fingerprint && (freshReplay || leasedReplay)
             && server.OldestOutputOffset() <= hello.resume <= server.outputOffset;
    }

    method Replay(hello: Hello, ghost terms: TerminalState.Terms)
      requires server.FlowValid()
      requires terms.replay == TerminalSystem.ReplayAfter(server.outputChunks, hello.resume)
      requires terms.grid == server.grid && terms.exit == server.exit
      modifies this, server`paused, server`flowCalls
      ensures State() == old(State()).Replay(terms, server.config) && FlowKept()
    {
      hide Conn.PublishOutput;
      hide Conn.SwitchToGrid;
      hide Conn.MaybeSendExit;
      var chunks := server.ReplayAfter(hello.resume);
      ghost var grid, limit := server.grid, server.config.maxBuffered;
      var i := 0;
      while i < |chunks|
        invariant 0 <= i <= |chunks|
        invariant FlowKept()
        invariant State().PublishAll(chunks[i..], grid, limit) == old(State()).PublishAll(chunks, grid, limit)
      {
        assert chunks[i..][0] == chunks[i] && chunks[i..][1..] == chunks[i + 1..];
        PublishOutput(chunks[i]);
        i := i + 1;
      }
      if needsGrid.Some? && server.grid.Some? && server.grid.value.covers >= needsGrid.value {
        SwitchToGrid(server.grid.value);
      }
      MaybeSendExit();
    }
  }

  class ProtocolServer {
    const config: Config
    var outputOffset: nat
    var outputChunks: seq<Chunk>
    var replayBytes: int
    var grid: Option<Grid>
    var gridRevision: nat
    var resizing: bool
    var barrier: nat
    var resizeRevision: nat
    var exit: Option<nat>
    var deferredOutput: seq<seq<Byte>>
    var deferredUpdates: seq<Update>
    var deferredGrids: seq<Grid>
    var deferredBytes: nat
    var connections: seq<ServerConnection>
    var paused: set<ServerConnection>
    var flowCalls: seq<bool>
    ghost var bytes: seq<Byte>
    ghost var resizes: seq<Resize>

    ghost function Core(): Server
      reads this
    {
      Server(bytes, outputChunks, replayBytes, grid, gridRevision, resizing, barrier, resizes, resizeRevision,
             exit, deferredOutput, deferredUpdates, deferredGrids, deferredBytes)
    }

    /** The host has been told to pause exactly while some connection holds it paused. */
    ghost predicate FlowValid()
      reads `paused, `flowCalls
    {
      Alternating(flowCalls) && (paused != {} <==> |flowCalls| % 2 == 1)
    }

    ghost predicate Valid()
      reads this, connections
    {
      && FlowValid()
      && 1 <= config.wireChunk
      && outputOffset == |bytes|
      && (forall i :: 0 <= i < |connections| ==> connections[i].server == this)
      && (forall i, j :: 0 <= i < j < |connections| ==> connections[i] != connections[j])
      && (forall c :: c in paused ==> c in connections && c.mayWrite)
    }

    /** The transition system as one connection sees it; `base` supplies its client and its hello. */
    ghost function Seen(c: ServerConnection, base: System): System
      requires c.server == this
      reads this, c
    {
      base.(config := config, server := Core(), conn := c.State())
    }

    /** The transition system of an attachment that never opened: it shows what the server itself does. */
    ghost function Plain(base: System): System
      reads this
    {
      base.(config := config, server := Core(), conn := ABSENT)
    }

    constructor (config: Config)
      requires ValidConfig(config)
      ensures Valid() && this.config == config && connections == [] && flowCalls == []
      ensures Core() == Server([], [], 0, None, 0, false, 0, [], 0, None, [], [], [], 0)
    {
      this.config := config;
      outputOffset, outputChunks, replayBytes, grid, gridRevision := 0, [], 0, None, 0;
      resizing, barrier, resizeRevision, exit := false, 0, 0, None;
      deferredOutput, deferredUpdates, deferredGrids, deferredBytes := [], [], [], 0;
      connections, paused, flowCalls, bytes, resizes := [], {}, [], [], [];
    }

    method Attach(mayWrite: bool, room: nat) returns (c: ServerConnection)
      requires Valid()
      modifies `connections
      ensures Valid() && fresh(c) && connections == old(connections) + [c]
      ensures c.State() == Attached(mayWrite, room)
    {
      c := new ServerConnection(this, mayWrite, room);
      connections := connections + [c];
    }

    /** A stream that ends takes its connection out, which then no longer holds the process. */
    method Detach(i: nat)
      requires Valid() && i < |connections|
      modifies `connections, `paused, `flowCalls, connections[i]
      ensures Valid() && connections == old(connections[..i] + connections[i + 1..])
      ensures old(connections[i]).State() == old(connections[i].State()).Close().SetFlowPaused(false)
      ensures paused == old(paused) - {old(connections[i])}
    {
      var c := connections[i];
      c.Close();
      connections := connections[..i] + connections[i + 1..];
      SetFlowPaused(c, false);
      ghost var was := old(connections);
      assert forall k :: 0 <= k < |connections| ==> connections[k] == was[if k < i then k else k + 1];
      assert c !in paused && paused <= old(paused);
      forall d | d in paused ensures d in connections {
        var k :| 0 <= k < |was| && was[k] == d;
        assert connections[if k < i then k else k - 1] == d;
      }
    }

    /** The host hears of a change only when the first writer pauses or the last one resumes. */
    method SetFlowPaused(c: ServerConnection, p: bool)
      requires FlowValid()
      modifies `paused, `flowCalls
      ensures FlowValid()
      ensures paused == if !c.mayWrite then old(paused) else if p then old(paused) + {c} else old(paused) - {c}
      ensures if (old(paused) != {}) == (paused != {}) then flowCalls == old(flowCalls)
              else flowCalls == old(flowCalls) + [paused != {}]
    {
      if !c.mayWrite {
        return;
      }
      var wasPaused := paused != {};
      if p {
        paused := paused + {c};
      } else {
        paused := paused - {c};
      }
      var isPaused := paused != {};
      if wasPaused != isPaused {
        flowCalls := flowCalls + [isPaused];
      }
    }

    function OldestOutputOffset(): nat
      reads this
    {
      if outputChunks == [] then outputOffset else outputChunks[0].start
    }

    method ReplayAfter(offset: nat) returns (chunks: seq<Chunk>)
      ensures chunks == TerminalSystem.ReplayAfter(outputChunks, offset)
    {
      chunks := [];
      var i := 0;
      while i < |outputChunks|
        invariant 0 <= i <= |outputChunks|
        invariant chunks + TerminalSystem.ReplayAfter(outputChunks[i..], offset)
               == TerminalSystem.ReplayAfter(outputChunks, offset)
      {
        var chunk := outputChunks[i];
        assert outputChunks[i..][0] == chunk && outputChunks[i..][1..] == outputChunks[i + 1..];
        if chunk.End() > offset {
          chunks := chunks + [if offset > chunk.start then Chunk(offset, chunk.data[offset - chunk.start..])
                              else chunk];
        }
        i := i + 1;
      }
    }

    /** Store one piece of output, dropping the oldest pieces beyond the replay limit. */
    method RetainChunk(data: seq<Byte>) returns (chunk: Chunk)
      requires outputOffset == |bytes|
      modifies `outputOffset, `outputChunks, `replayBytes, `bytes
      ensures chunk == Chunk(|old(bytes)|, data) && outputOffset == |bytes|
      ensures Core() == CommitChunk(old(Core()), chunk, config.maxReplay)
    {
      chunk := Chunk(outputOffset, data);
      outputOffset := chunk.End();
      outputChunks := outputChunks + [chunk];
      replayBytes := replayBytes + |data|;
      bytes := bytes + data;
      while replayBytes > config.maxReplay && |outputChunks| > 0
        invariant Trim(outputChunks, replayBytes, config.maxReplay)
               == Trim(old(outputChunks) + [chunk], old(replayBytes) + |data|, config.maxReplay)
        invariant bytes == old(bytes) + data && outputOffset == |bytes|
        decreases |outputChunks|
      {
        replayBytes := replayBytes - |outputChunks[0].data|;
        outputChunks := outputChunks[1..];
      }
    }

    method CommitOutput(data: seq<Byte>, ghost base: System)
      requires Valid()
      modifies this, connections
      ensures Valid() && connections == old(connections)
      ensures Plain(base) == TerminalSystem.CommitOutput(old(Plain(base)), data)
      ensures forall i :: 0 <= i < |connections| ==>
                Seen(connections[i], base) == TerminalSystem.CommitOutput(old(Seen(connections[i], base)), data)
      decreases |data|
    {
      hide TerminalSystem.CommitOutput;
      NothingCommitted();
      if data == [] {
        return;
      }
      if |data| > config.wireChunk {
        var offset := 0;
        while offset < |data|
          invariant offset <= |data| && Valid() && connections == old(connections)
          invariant TerminalSystem.CommitOutput(Plain(base), data[offset..])
                 == TerminalSystem.CommitOutput(old(Plain(base)), data)
          invariant forall i :: 0 <= i < |connections| ==>
                      (TerminalSystem.CommitOutput(Seen(connections[i], base), data[offset..])
                       == TerminalSystem.CommitOutput(old(Seen(connections[i], base)), data))
        {
          var end := Min(offset + config.wireChunk, |data|);
          assert data[offset..][..end - offset] == data[offset..end] && data[offset..][end - offset..] == data[end..];
          FirstPiece(Plain(base), data[offset..]);
          forall i | 0 <= i < |connections| ensures
            TerminalSystem.CommitOutput(Seen(connections[i], base), data[offset..])
            == TerminalSystem.CommitOutput(
                 TerminalSystem.CommitOutput(Seen(connections[i], base), data[offset..end]), data[end..])
          {
            FirstPiece(Seen(connections[i], base), data[offset..]);
          }
          CommitOutput(data[offset..end], base);
          offset := end;
        }
        return;
      }
      CommitPiece(data, base);
    }

    method CommitPiece(data: seq<Byte>, ghost base: System)
      requires Valid() && 1 <= |data| <= config.wireChunk
      modifies this, connections
      ensures Valid() && connections == old(connections)
      ensures Plain(base) == TerminalSystem.CommitOutput(old(Plain(base)), data)
      ensures forall i :: 0 <= i < |connections| ==>
                Seen(connections[i], base) == TerminalSystem.CommitOutput(old(Seen(connections[i], base)), data)
    {
      hide CommitChunk;
      hide Conn.PublishOutput;
      hide TerminalSystem.CommitOutput;
      var chunk := RetainChunk(data);
      PublishToAll(chunk);
      OneChunk(old(Plain(base)), data);
      AbsentPublishesOutput(chunk, grid, config.maxBuffered);
      forall i | 0 <= i < |connections|
        ensures Seen(connections[i], base) == TerminalSystem.CommitOutput(old(Seen(connections[i], base)), data)
      {
        OneChunk(old(Seen(connections[i], base)), data);
      }
    }

    method PublishToAll(chunk: Chunk)
      requires Valid()
      modifies `paused, `flowCalls, connections
      ensures Valid() && connections == old(connections) && Core() == old(Core())
      ensures forall i :: 0 <= i < |connections| ==>
                connections[i].State() == old(connections[i].State()).PublishOutput(chunk, grid, config.maxBuffered)
    {
      hide Conn.PublishOutput;
      var i := 0;
      while i < |connections|
        invariant 0 <= i <= |connections| && Valid() && connections == old(connections) && Core() == old(Core())
        invariant forall j :: 0 <= j < i ==>
                    connections[j].State() == old(connections[j].State()).PublishOutput(chunk, grid, config.maxBuffered)
        invariant forall j :: i <= j < |connections| ==> connections[j].State() == old(connections[j].State())
      {
        PublishTo(i, chunk);
        i := i + 1;
      }
    }

    method PublishTo(i: nat, chunk: Chunk)
      requires Valid() && i < |connections|
      modifies `paused, `flowCalls, connections[i]
      ensures OnlyChanged(i)
      ensures connections[i].State() == old(connections[i].State()).PublishOutput(chunk, grid, config.maxBuffered)
    {
      hide Conn.PublishOutput;
      connections[i].PublishOutput(chunk);
    }

    method CommitGrid(state: Grid, ghost base: System)
      requires Valid()
      modifies this, connections
      ensures Valid() && connections == old(connections)
      ensures Plain(base) == TerminalSystem.CommitGrid(old(Plain(base)), state)
      ensures forall i :: 0 <= i < |connections| ==>
                Seen(connections[i], base) == TerminalSystem.CommitGrid(old(Seen(connections[i], base)), state)
    {
      hide Conn.PublishGrid;
      var previous := grid;
      gridRevision := gridRevision + 1;
      var next := state.(revision := gridRevision);
      grid := Some(next);
      PublishGridToAll(previous, next);
      AbsentPublishes(previous, next);
    }

    method PublishGridToAll(previous: Option<Grid>, next: Grid)
      requires Valid()
      modifies `paused, `flowCalls, connections
      ensures Valid() && connections == old(connections) && Core() == old(Core())
      ensures forall i :: 0 <= i < |connections| ==>
                connections[i].State() == old(connections[i].State()).PublishGrid(previous, next)
    {
      hide Conn.PublishGrid;
      var i := 0;
      while i < |connections|
        invariant 0 <= i <= |connections| && Valid() && connections == old(connections) && Core() == old(Core())
        invariant forall j :: 0 <= j < i ==>
                    connections[j].State() == old(connections[j].State()).PublishGrid(previous, next)
        invariant forall j :: i <= j < |connections| ==> connections[j].State() == old(connections[j].State())
      {
        PublishGridTo(i, previous, next);
        i := i + 1;
      }
    }

    method PublishGridTo(i: nat, previous: Option<Grid>, next: Grid)
      requires Valid() && i < |connections|
      modifies `paused, `flowCalls, connections[i]
      ensures OnlyChanged(i)
      ensures connections[i].State() == old(connections[i].State()).PublishGrid(previous, next)
    {
      hide Conn.PublishGrid;
      connections[i].PublishGrid(previous, next);
    }

    /** Only connection `i` changed, and whether it holds the host paused. */
    twostate predicate OnlyChanged(i: nat)
      reads this, connections
    {
      && Valid() && connections == old(connections) && Core() == old(Core())
      && forall j :: 0 <= j < |connections| && j != i ==> connections[j].State() == old(connections[j].State())
    }

    /** Refused after the exit, and during a resize once the held output would pass the buffer limit. */
    method PublishOutput(data: seq<Byte>, ghost base: System) returns (accepted: bool)
      requires Valid()
      modifies this, connections
      ensures Valid() && connections == old(connections)
      ensures Plain(base) == Step(old(Plain(base)), Action.PublishOutput(data))
      ensures forall i :: 0 <= i < |connections| ==>
                Seen(connections[i], base) == Step(old(Seen(connections[i], base)), Action.PublishOutput(data))
      ensures !accepted ==> Core() == old(Core())
    {
      hide TerminalSystem.CommitOutput;
      if data == [] {
        return true;
      }
      if exit.Some? {
        return false;
      }
      if resizing {
        accepted := ReserveDeferredBytes(|data|);
        if accepted {
          deferredOutput := deferredOutput + [data];
        }
        return;
      }
      CommitOutput(data, base);
      return true;
    }

    method ReserveDeferredBytes(length: nat) returns (accepted: bool)
      modifies `deferredBytes
      ensures accepted == (old(deferredBytes) + length <= config.maxBuffered)
      ensures deferredBytes == if accepted then old(deferredBytes) + length else old(deferredBytes)
    {
      accepted := deferredBytes + length <= config.maxBuffered;
      if accepted {
        deferredBytes := deferredBytes + length;
      }
    }

    method PublishGrid(state: Grid, encodedBytes: nat, ghost base: System) returns (accepted: bool)
      requires Valid()
      modifies this, connections
      ensures Valid() && connections == old(connections)
      ensures Plain(base) == Step(old(Plain(base)), Action.PublishGrid(state, encodedBytes))
      ensures forall i :: 0 <= i < |connections| ==>
                (Seen(connections[i], base)
                 == Step(old(Seen(connections[i], base)), Action.PublishGrid(state, encodedBytes)))
      ensures !accepted ==> Core() == old(Core())
    {
      hide TerminalSystem.CommitGrid;
      if exit.Some? || state.covers > outputOffset {
        return false;
      }
      if resizing {
        accepted := ReserveDeferredBytes(encodedBytes);
        if accepted {
          deferredGrids := deferredGrids + [state];
        }
        return;
      }
      CommitGrid(state, base);
      return true;
    }

    method CommitUpdate(update: Update, ghost base: System)
      requires Valid()
      modifies this, connections
      ensures Valid() && connections == old(connections)
      ensures Plain(base) == TerminalSystem.CommitUpdate(old(Plain(base)), update)
      ensures forall i :: 0 <= i < |connections| ==>
                Seen(connections[i], base) == TerminalSystem.CommitUpdate(old(Seen(connections[i], base)), update)
    {
      hide TerminalSystem.CommitOutput;
      hide TerminalSystem.CommitGrid;
      CommitOutput(update.data, base);
      CommitGrid(update.state.(covers := outputOffset), base);
    }

    method PublishUpdate(update: Update, ghost base: System) returns (accepted: bool)
      requires Valid()
      modifies this, connections
      ensures Valid() && connections == old(connections)
      ensures Plain(base) == Step(old(Plain(base)), Action.PublishUpdate(update))
      ensures forall i :: 0 <= i < |connections| ==>
                Seen(connections[i], base) == Step(old(Seen(connections[i], base)), Action.PublishUpdate(update))
      ensures !accepted ==> Core() == old(Core())
    {
      hide TerminalSystem.CommitUpdate;
      if exit.Some? {
        return false;
      }
      if resizing {
        accepted := ReserveDeferredBytes(|update.data|);
        if accepted {
          deferredUpdates := deferredUpdates + [update];
        }
        return;
      }
      CommitUpdate(update, base);
      return true;
    }

    method FlushDeferredOutput(ghost base: System)
      requires Valid()
      modifies this, connections
      ensures Valid() && connections == old(connections)
      ensures Plain(base) == FlushDeferred(old(Plain(base)))
      ensures forall i :: 0 <= i < |connections| ==>
                Seen(connections[i], base) == FlushDeferred(old(Seen(connections[i], base)))
    {
      hide CommitOutputs;
      hide CommitUpdates;
      hide CommitGrids;
      var output, updates, grids := deferredOutput, deferredUpdates, deferredGrids;
      resizing, deferredOutput, deferredUpdates, deferredGrids, deferredBytes := false, [], [], [], 0;
      CommitAllOutput(output, base);
      CommitAllUpdates(updates, base);
      CommitAllGrids(grids, base);
    }

    method CommitAllOutput(outputs: seq<seq<Byte>>, ghost base: System)
      requires Valid()
      modifies this, connections
      ensures Valid() && connections == old(connections)
      ensures Plain(base) == CommitOutputs(old(Plain(base)), outputs)
      ensures forall i :: 0 <= i < |connections| ==>
                Seen(connections[i], base) == CommitOutputs(old(Seen(connections[i], base)), outputs)
    {
      hide TerminalSystem.CommitOutput;
      var n := 0;
      while n < |outputs|
        invariant 0 <= n <= |outputs| && Valid() && connections == old(connections)
        invariant CommitOutputs(Plain(base), outputs[n..]) == CommitOutputs(old(Plain(base)), outputs)
        invariant forall i :: 0 <= i < |connections| ==>
                    (CommitOutputs(Seen(connections[i], base), outputs[n..])
                     == CommitOutputs(old(Seen(connections[i], base)), outputs))
      {
        assert outputs[n..][0] == outputs[n] && outputs[n..][1..] == outputs[n + 1..];
        CommitOutput(outputs[n], base);
        n := n + 1;
      }
    }

    method CommitAllUpdates(updates: seq<Update>, ghost base: System)
      requires Valid()
      modifies this, connections
      ensures Valid() && connections == old(connections)
      ensures Plain(base) == CommitUpdates(old(Plain(base)), updates)
      ensures forall i :: 0 <= i < |connections| ==>
                Seen(connections[i], base) == CommitUpdates(old(Seen(connections[i], base)), updates)
    {
      hide TerminalSystem.CommitUpdate;
      var n := 0;
      while n < |updates|
        invariant 0 <= n <= |updates| && Valid() && connections == old(connections)
        invariant CommitUpdates(Plain(base), updates[n..]) == CommitUpdates(old(Plain(base)), updates)
        invariant forall i :: 0 <= i < |connections| ==>
                    (CommitUpdates(Seen(connections[i], base), updates[n..])
                     == CommitUpdates(old(Seen(connections[i], base)), updates))
      {
        assert updates[n..][0] == updates[n] && updates[n..][1..] == updates[n + 1..];
        CommitUpdate(updates[n], base);
        n := n + 1;
      }
    }

    method CommitAllGrids(grids: seq<Grid>, ghost base: System)
      requires Valid()
      modifies this, connections
      ensures Valid() && connections == old(connections)
      ensures Plain(base) == CommitGrids(old(Plain(base)), grids)
      ensures forall i :: 0 <= i < |connections| ==>
                Seen(connections[i], base) == CommitGrids(old(Seen(connections[i], base)), grids)
    {
      hide TerminalSystem.CommitGrid;
      var n := 0;
      while n < |grids|
        invariant 0 <= n <= |grids| && Valid() && connections == old(connections)
        invariant CommitGrids(Plain(base), grids[n..]) == CommitGrids(old(Plain(base)), grids)
        invariant forall i :: 0 <= i < |connections| ==>
                    (CommitGrids(Seen(connections[i], base), grids[n..])
                     == CommitGrids(old(Seen(connections[i], base)), grids))
      {
        assert grids[n..][0] == grids[n] && grids[n..][1..] == grids[n + 1..];
        CommitGrid(grids[n], base);
        n := n + 1;
      }
    }

    method PublishExit(ghost base: System) returns (accepted: bool)
      requires Valid()
      modifies `exit, connections
      ensures Valid() && connections == old(connections)
      ensures Plain(base) == Step(old(Plain(base)), Action.PublishExit)
      ensures forall i :: 0 <= i < |connections| ==>
                Seen(connections[i], base) == Step(old(Seen(connections[i], base)), Action.PublishExit)
      ensures accepted <==> old(exit).None? && !resizing
    {
      hide Conn.MaybeSendExit;
      if exit.Some? || resizing {
        return false;
      }
      exit := Some(outputOffset);
      accepted := true;
      TellExit();
      AbsentExits(exit, grid);
    }

    method TellExit()
      requires Valid()
      modifies connections
      ensures Valid() && connections == old(connections) && Core() == old(Core())
      ensures forall i :: 0 <= i < |connections| ==>
                connections[i].State() == old(connections[i].State()).MaybeSendExit(exit, grid)
    {
      hide Conn.MaybeSendExit;
      var i := 0;
      while i < |connections|
        invariant 0 <= i <= |connections| && Valid()
        invariant forall j :: 0 <= j < i ==>
                    connections[j].State() == old(connections[j].State()).MaybeSendExit(exit, grid)
        invariant forall j :: i <= j < |connections| ==> connections[j].State() == old(connections[j].State())
      {
        connections[i].MaybeSendExit();
        i := i + 1;
      }
    }

    /** Output published from here to the end of the resize is held back. */
    method BeginResize(ghost base: System)
      requires Valid()
      modifies `resizing, `barrier
      ensures Valid() && Plain(base) == Step(old(Plain(base)), ResizeBegin)
      ensures forall i :: 0 <= i < |connections| ==>
                Seen(connections[i], base) == Step(old(Seen(connections[i], base)), ResizeBegin)
    {
      if !resizing {
        resizing := true;
        barrier := outputOffset;
      }
    }

    /** A resize that succeeded is announced to everyone at its barrier before held output is committed. */
    method EndResize(cols: nat, rows: nat, succeeded: bool, ghost base: System)
      requires Valid() && resizing && ValidDimensions(cols, rows)
      modifies this, connections
      ensures Valid() && connections == old(connections)
      ensures Plain(base) == Step(old(Plain(base)), ResizeEnd(cols, rows, succeeded))
      ensures forall i :: 0 <= i < |connections| ==>
                Seen(connections[i], base) == Step(old(Seen(connections[i], base)), ResizeEnd(cols, rows, succeeded))
    {
      hide FlushDeferred;
      hide AnnounceResize;
      if succeeded {
        Announce(cols, rows, base);
      }
      FlushDeferredOutput(base);
    }

    method Announce(cols: nat, rows: nat, ghost base: System)
      requires Valid()
      modifies this, connections
      ensures Valid() && connections == old(connections)
      ensures Plain(base) == AnnounceResize(old(Plain(base)), cols, rows)
      ensures forall i :: 0 <= i < |connections| ==>
                Seen(connections[i], base) == AnnounceResize(old(Seen(connections[i], base)), cols, rows)
    {
      hide Conn.Send;
      resizeRevision := resizeRevision + 1;
      var resize := Resize(barrier, cols, rows, resizeRevision);
      resizes := resizes + [resize];
      SendToAll(Resized(resize));
      AbsentSends(Resized(resize));
      assert AnnounceResize(old(Plain(base)), cols, rows).conn == ABSENT.Send(Resized(resize));
      assert AnnounceResize(old(Plain(base)), cols, rows).server == Core();
    }

    method SendToAll(m: Down)
      requires Valid()
      modifies connections
      ensures Valid() && connections == old(connections) && Core() == old(Core())
      ensures forall i :: 0 <= i < |connections| ==>
                connections[i].State() == old(connections[i].State()).Send(m)
    {
      hide Conn.Send;
      var i := 0;
      while i < |connections|
        invariant 0 <= i <= |connections| && Valid()
        invariant forall j :: 0 <= j < i ==> connections[j].State() == old(connections[j].State()).Send(m)
        invariant forall j :: i <= j < |connections| ==> connections[j].State() == old(connections[j].State())
      {
        connections[i].Send(m);
        i := i + 1;
      }
    }
  }

  lemma {:induction false} AbsentPublishes(previous: Option<Grid>, next: Grid)
    ensures ABSENT.PublishGrid(previous, next) == ABSENT
  {
  }

  lemma {:induction false} AbsentPublishesOutput(chunk: Chunk, grid: Option<Grid>, limit: nat)
    ensures ABSENT.PublishOutput(chunk, grid, limit) == ABSENT
  {
  }

  lemma {:induction false} NothingCommitted()
    ensures forall s: System :: 1 <= s.config.wireChunk ==> TerminalSystem.CommitOutput(s, []) == s
  {
  }

  lemma {:induction false} AbsentExits(exit: Option<nat>, grid: Option<Grid>)
    ensures ABSENT.MaybeSendExit(exit, grid) == ABSENT
  {
  }

  lemma {:induction false} AbsentSends(m: Down)
    ensures ABSENT.Send(m) == ABSENT
  {
  }

  lemma {:induction false} FirstPieceCore(server: Server, data: seq<Byte>, config: Config)
    requires 1 <= config.wireChunk && data != []
    ensures var m := Min(config.wireChunk, |data|);
            var next := CommitChunks(server, Split(server.Offset(), data[..m], config.wireChunk), config.maxReplay);
            && CommitChunks(server, Split(server.Offset(), data, config.wireChunk), config.maxReplay)
               == CommitChunks(next, Split(next.Offset(), data[m..], config.wireChunk), config.maxReplay)
            && next.Offset() == server.Offset() + m && next.grid == server.grid
  {
    var size := config.wireChunk;
    if |data| <= size {
      assert data[..|data|] == data && data[|data|..] == [];
      OneCore(server, data, config);
    } else {
      var chunk := Chunk(server.Offset(), data[..size]);
      var rest := Split(server.Offset() + size, data[size..], size);
      assert ([chunk] + rest)[1..] == rest;
      OneCore(server, data[..size], config);
    }
  }

  lemma {:induction false} OneCore(server: Server, data: seq<Byte>, config: Config)
    requires 1 <= |data| <= config.wireChunk
    ensures CommitChunks(server, Split(server.Offset(), data, config.wireChunk), config.maxReplay)
         == CommitChunk(server, Chunk(server.Offset(), data), config.maxReplay)
    ensures CommitChunk(server, Chunk(server.Offset(), data), config.maxReplay).Offset() == server.Offset() + |data|
    ensures CommitChunk(server, Chunk(server.Offset(), data), config.maxReplay).grid == server.grid
  {
    hide Trim;
    var chunk := Chunk(server.Offset(), data);
    var next := CommitChunk(server, chunk, config.maxReplay);
    assert [chunk][1..] == [];
    assert CommitChunks(server, [chunk], config.maxReplay) == CommitChunks(next, [], config.maxReplay);
  }

  /** Output longer than a wire chunk is committed as its first piece and then the rest. */
  lemma {:induction false} FirstPiece(s: System, data: seq<Byte>)
    requires 1 <= s.config.wireChunk && data != []
    ensures var m := Min(s.config.wireChunk, |data|);
            TerminalSystem.CommitOutput(s, data)
            == TerminalSystem.CommitOutput(TerminalSystem.CommitOutput(s, data[..m]), data[m..])
  {
    hide CommitChunks;
    hide Conn.PublishOutput;
    var size := s.config.wireChunk;
    var m := Min(size, |data|);
    FirstPieceCore(s.server, data, s.config);
    var grid, limit := s.server.grid, s.config.maxBuffered;
    var chunk := Chunk(s.server.Offset(), data[..m]);
    assert data[..|data|] == data;
    assert Split(s.server.Offset(), data[..m], size) == [chunk];
    var rest := Split(s.server.Offset() + m, data[m..], size);
    assert Split(s.server.Offset(), data, size) == [chunk] + rest;
    assert ([chunk] + rest)[1..] == rest && [chunk][1..] == [];
    assert s.conn.PublishAll([chunk] + rest, grid, limit)
        == s.conn.PublishOutput(chunk, grid, limit).PublishAll(rest, grid, limit);
    assert s.conn.PublishAll([chunk], grid, limit)
        == s.conn.PublishOutput(chunk, grid, limit).PublishAll([], grid, limit);
  }

  /** Committing one wire chunk or less is one step of every part of the system. */
  lemma {:induction false} OneChunk(s: System, data: seq<Byte>)
    requires 1 <= |data| <= s.config.wireChunk
    ensures var chunk := Chunk(s.server.Offset(), data);
            TerminalSystem.CommitOutput(s, data)
            == s.(server := CommitChunk(s.server, chunk, s.config.maxReplay),
                  conn := s.conn.PublishOutput(chunk, s.server.grid, s.config.maxBuffered))
  {
    hide CommitChunk;
    hide Conn.PublishOutput;
    var chunk := Chunk(s.server.Offset(), data);
    assert Split(s.server.Offset(), data, s.config.wireChunk) == [chunk];
    assert [chunk][1..] == [];
    assert CommitChunks(s.server, [chunk], s.config.maxReplay)
        == CommitChunks(CommitChunk(s.server, chunk, s.config.maxReplay), [], s.config.maxReplay);
    assert s.conn.PublishAll([chunk], s.server.grid, s.config.maxBuffered)
        == s.conn.PublishOutput(chunk, s.server.grid, s.config.maxBuffered)
                 .PublishAll([], s.server.grid, s.config.maxBuffered);
  }
}
