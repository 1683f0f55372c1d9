/**
 * The values of one remote terminal attachment and what each of its operations does to them
 * (RemoteTerminalProtocolServer.ts, RemoteTerminalProtocolClient.ts). The classes ServerConnection,
 * ProtocolServer and ProtocolClient are proved against these functions.
 */
module TerminalState {
  import opened Basics
  import opened Grids

  datatype Mode = Vt | Semantic

  /** Committed output bytes starting at a stream offset. */
  datatype Chunk = Chunk(start: nat, data: seq<Byte>) {
    function End(): nat { start + |data| }
  }

  /** One applied or announced resize: dimensions take effect at output offset `barrier`. */
  datatype Resize = Resize(barrier: nat, cols: nat, rows: nat, revision: nat)

  /** Packets from the server; `end` is the wire sequence of an Output packet. */
  datatype Down =
    | Welcome(mode: Mode, resizeRevision: nat, epoch: string)
    | Output(end: nat, data: seq<Byte>)
    | ModeSwitch
    | Keyframe(grid: Grid)
    | GridPatch(patch: Patch)
    | Resized(resize: Resize)
    | Exit(outputOffset: nat)
    | Failure

  /** Display packets from the client. */
  datatype Up = OutputAck(offset: nat) | GridAck(revision: nat) | Resync | ResizeApplied(revision: nat)

  datatype Config = Config(
    epoch: string,
    fingerprint: string,
    wireChunk: nat,
    maxReplay: nat,
    maxUnacknowledged: nat,
    maxBuffered: nat)

  /** The bounds the server constructor enforces on the sizes modelled here. */
  predicate ValidConfig(c: Config) {
    && 1 <= c.wireChunk <= c.maxUnacknowledged
    && 1 <= c.maxReplay
    && 1 <= c.maxBuffered
  }

  datatype Hello = Hello(
    grid: bool,
    vt: bool,
    credit: nat,
    epoch: Option<string>,
    inputLease: Option<string>,
    fingerprint: string,
    resume: nat)

  /** The server state an initialization consults. */
  datatype Terms = Terms(
    leaseOutput: nat,
    leaseResize: nat,
    resizeRevision: nat,
    oldest: nat,
    offset: nat,
    grid: Option<Grid>,
    exit: Option<nat>,
    replay: seq<Chunk>)

  /** Whether retained output can be replayed to this client instead of a keyframe. */
  predicate CanReplay(hello: Hello, terms: Terms, config: Config) {
    var epochMatches :=
      (hello.epoch.None? && hello.resume == 0) || hello.epoch == Some(config.epoch);
    var freshReplay :=
      hello.inputLease.None? && hello.epoch.None? && hello.resume == 0 && terms.resizeRevision == 0;
    var leasedReplay :=
      && hello.inputLease.Some?
      && epochMatches
      && hello.resume == terms.leaseOutput
      && terms.leaseResize == terms.resizeRevision;
    && hello.vt
    && hello.fingerprint == config.fingerprint
    && (freshReplay || leasedReplay)
    && terms.oldest <= hello.resume <= terms.offset
  }

  /** The server's half of one attachment. `wire` is what the stream has accepted and not delivered,
      `lost` what was handed to a blocked stream, and `room` how many further writes the stream will
      accept before it reports back-pressure. */
  datatype Conn = Conn(
    open: bool,
    initialized: bool,
    mode: Mode,
    blocked: bool,
    room: nat,
    gridCapable: bool,
    mayWrite: bool,
    credit: nat,
    acked: nat,
    maxSent: nat,
    needsGrid: Option<nat>,
    pendingVt: seq<Chunk>,
    pendingBytes: int,
    paused: bool,
    gridAcked: Option<Grid>,
    gridInFlight: Option<Grid>,
    pendingGrid: Option<Grid>,
    exitSent: bool,
    wire: seq<Down>,
    lost: seq<Down>)
  {
    /** What every operation keeps: losses are never undone, a closed connection stays closed, and what
        was negotiated stands except that VT may give way to the grid. */
    predicate Grown(d: Conn) {
      && lost <= d.lost
      && (d.open ==> open)
      && d.mayWrite == mayWrite
      && (initialized ==>
            && d.initialized && d.gridCapable == gridCapable && d.credit == credit
            && (mode == Semantic ==> d.mode == Semantic))
    }

    /** A closed connection sends nothing. A blocked one neither writes the packet nor keeps it:
        `blocked ||= !write(packet)` evaluates the write only while the flag is still false. */
    function Send(m: Down): (d: Conn)
      ensures Grown(d) && d.acked == acked && d.exitSent == exitSent && d.gridAcked == gridAcked
    {
      if !open then this
      else if blocked then this.(lost := lost + [m])
      else this.(wire := wire + [m], blocked := room == 0, room := if room == 0 then 0 else room - 1)
    }

    /** Read-only attachments never enter the server's paused set. */
    function SetFlowPaused(p: bool): (d: Conn)
      ensures Grown(d) && d.acked == acked && d.exitSent == exitSent && d.gridAcked == gridAcked
    {
      if !mayWrite then this else this.(paused := p)
    }

    function Close(): (d: Conn)
      ensures Grown(d) && d.acked == acked && d.exitSent == exitSent && d.gridAcked == gridAcked
    {
      if !open then this else this.(open := false).SetFlowPaused(false)
    }

    function Fail(): (d: Conn)
      ensures Grown(d) && d.acked == acked && d.exitSent == exitSent && d.gridAcked == gridAcked
    {
      Send(Failure).Close()
    }

    function SendOutput(chunk: Chunk): (d: Conn)
      ensures Grown(d) && d.acked == acked && d.exitSent == exitSent && d.gridAcked == gridAcked
    {
      var c := Send(Output(chunk.End(), chunk.data));
      c.(maxSent := Max(c.maxSent, chunk.End()))
    }

    function SendKeyframe(g: Grid): (d: Conn)
      ensures Grown(d) && d.acked == acked && d.exitSent == exitSent && d.gridAcked == gridAcked
    {
      Send(Keyframe(g)).(gridInFlight := Some(g))
    }

    /** A patch is sent only against the acknowledged state, and only when that is the previous one. */
    function SendGrid(previous: Option<Grid>, g: Grid): (d: Conn)
      ensures Grown(d) && d.exitSent == exitSent && d.gridAcked == gridAcked
    {
      if gridAcked.None? || previous.None? || previous.value.revision != gridAcked.value.revision
      then SendKeyframe(g)
      else match Diff(gridAcked.value, g)
           case None => SendKeyframe(g)
           case Some(patch) => Send(GridPatch(patch)).(gridInFlight := Some(g))
    }

    function SwitchToGrid(g: Grid): (d: Conn)
      ensures Grown(d) && d.acked == acked && d.exitSent == exitSent && d.gridAcked == gridAcked
    {
      var c := if gridInFlight.Some? then this.(pendingGrid := Some(g)) else this;
      var d := c.(mode := Semantic, needsGrid := None, pendingVt := [], pendingBytes := 0)
               .SetFlowPaused(false).Send(ModeSwitch);
      if gridInFlight.None? then d.SendKeyframe(g) else d
    }

    function PublishGrid(previous: Option<Grid>, next: Grid): (d: Conn)
      ensures Grown(d) && d.exitSent == exitSent && d.gridAcked == gridAcked
    {
      if !initialized then this
      else if needsGrid.Some? && gridCapable && next.covers >= needsGrid.value then SwitchToGrid(next)
      else if mode != Semantic then this
      else if blocked || gridInFlight.Some? then this.(pendingGrid := Some(next))
      else SendGrid(previous, next)
    }

    function QueueVt(chunk: Chunk, maxBuffered: nat): (d: Conn)
      ensures Grown(d) && d.acked == acked && d.exitSent == exitSent && d.gridAcked == gridAcked
    {
      if pendingBytes + |chunk.data| > maxBuffered then Fail()
      else this.(pendingVt := pendingVt + [chunk], pendingBytes := pendingBytes + |chunk.data|)
    }

    function PublishOutput(chunk: Chunk, grid: Option<Grid>, maxBuffered: nat): (d: Conn)
      ensures Grown(d) && d.acked == acked && d.exitSent == exitSent && d.gridAcked == gridAcked
    {
      if !initialized || mode != Vt then this
      else if needsGrid.Some? then
        var c := this.(needsGrid := Some(chunk.End()));
        if gridCapable then c else c.QueueVt(chunk, maxBuffered)
      else if chunk.End() - acked > credit then
        var c := this.(needsGrid := Some(chunk.End()));
        if !gridCapable then c.QueueVt(chunk, maxBuffered).SetFlowPaused(true)
        else if grid.Some? && grid.value.covers >= chunk.End() then c.SwitchToGrid(grid.value)
        else c
      else SendOutput(chunk)
    }

    function PublishAll(chunks: seq<Chunk>, grid: Option<Grid>, maxBuffered: nat): (d: Conn)
      ensures Grown(d) && d.acked == acked && d.exitSent == exitSent && d.gridAcked == gridAcked
      decreases |chunks|
    {
      if chunks == [] then this
      else PublishOutput(chunks[0], grid, maxBuffered).PublishAll(chunks[1..], grid, maxBuffered)
    }

    /** Send queued chunks, oldest first, while they fit the credit window. */
    function SendQueued(): (d: Conn)
      ensures Grown(d) && d.acked == acked && d.exitSent == exitSent && d.gridAcked == gridAcked
      decreases |pendingVt|
    {
      if pendingVt == [] || pendingVt[0].End() - acked > credit then this
      else
        var next := pendingVt[0];
        this.(pendingVt := pendingVt[1..], pendingBytes := pendingBytes - |next.data|)
            .SendOutput(next).SendQueued()
    }

    function FlushPendingVt(): (d: Conn)
      ensures Grown(d) && d.acked == acked && d.exitSent == exitSent && d.gridAcked == gridAcked
    {
      var c := SendQueued();
      if c.pendingVt == [] then c.(needsGrid := None).SetFlowPaused(false) else c
    }

    function FlushGrid(): (d: Conn)
      ensures Grown(d) && d.exitSent == exitSent && d.gridAcked == gridAcked
    {
      if pendingGrid.Some? && !blocked && gridInFlight.None?
      then this.(pendingGrid := None).SendKeyframe(pendingGrid.value)
      else this
    }

    function Drain(): (d: Conn)
      ensures Grown(d) && d.exitSent == exitSent && d.gridAcked == gridAcked
    { this.(blocked := false).FlushGrid() }

    function MaybeSendExit(exit: Option<nat>, grid: Option<Grid>): (d: Conn)
      ensures Grown(d) && d.acked == acked && (exitSent ==> d.exitSent) && d.gridAcked == gridAcked
    {
      if exit.None? || exitSent || !initialized then this
      else if mode == Vt then
        if needsGrid.Some? || maxSent < exit.value then this
        else Send(Exit(exit.value)).(exitSent := true)
      else if gridAcked.None? || gridAcked.value.covers < exit.value then
        if grid.Some? && grid.value.covers >= exit.value && gridInFlight.None?
        then SendKeyframe(grid.value)
        else this
      else Send(Exit(exit.value)).(exitSent := true)
    }

    function OnOutputAck(offset: nat, exit: Option<nat>, grid: Option<Grid>): (d: Conn)
      ensures Grown(d) && (exitSent ==> d.exitSent) && d.gridAcked == gridAcked
    {
      if offset < acked || offset > maxSent then Fail()
      else this.(acked := offset).FlushPendingVt().MaybeSendExit(exit, grid)
    }

    function OnGridAck(revision: nat, exit: Option<nat>, grid: Option<Grid>): (d: Conn)
      ensures Grown(d)
    {
      if gridInFlight.None? || revision != gridInFlight.value.revision then Fail()
      else this.(gridAcked := gridInFlight, gridInFlight := None).FlushGrid().MaybeSendExit(exit, grid)
    }

    function OnResync(offset: nat, grid: Option<Grid>): (d: Conn)
      ensures Grown(d) && d.exitSent == exitSent && d.gridAcked == gridAcked
    {
      if grid.None? || grid.value.covers < offset then Fail()
      else SwitchToGrid(grid.value)
    }

    /** Send retained output, switch to the grid if it did not fit the credit, and report an exit. */
    function Replay(terms: Terms, config: Config): (d: Conn)
      ensures Grown(d) && d.gridAcked == gridAcked
    {
      var c := PublishAll(terms.replay, terms.grid, config.maxBuffered);
      var d := if c.needsGrid.Some? && terms.grid.Some? && terms.grid.value.covers >= c.needsGrid.value
               then c.SwitchToGrid(terms.grid.value) else c;
      d.MaybeSendExit(terms.exit, terms.grid)
    }

    function Initialize(hello: Hello, terms: Terms, config: Config): (d: Conn)
      requires !initialized
      ensures Grown(d) && d.gridAcked == gridAcked
    {
      var c := this.(gridCapable := hello.grid, credit := Min(hello.credit, config.maxUnacknowledged));
      if hello.credit < config.wireChunk then c.Fail()
      else
        var replay := CanReplay(hello, terms, config);
        if !replay && !hello.grid then c.Fail()
        else
          var mode := if replay then Vt else Semantic;
          var d := c.(mode := mode, acked := if replay then hello.resume else 0)
                   .Send(Welcome(mode, terms.resizeRevision, config.epoch)).(initialized := true);
          if replay then d.Replay(terms, config)
          else if terms.grid.None? || terms.grid.value.covers < terms.offset then d.Fail()
          else d.SendKeyframe(terms.grid.value).MaybeSendExit(terms.exit, terms.grid)
    }
  }

  /** A connection as attached: nothing negotiated and nothing sent. */
  function Attached(mayWrite: bool, room: nat): Conn {
    Conn(true, false, Vt, false, room, false, mayWrite, 0, 0, 0, None, [], 0, false, None, None, None,
         false, [], [])
  }

  /** One thing a replica is asked to apply. */
  datatype Event = Shown(byte: Byte) | Reshaped(resize: Resize)

  function ShownAll(data: seq<Byte>): seq<Event> {
    seq(|data|, i requires 0 <= i < |data| => Shown(data[i]))
  }

  /** The client's half of one attachment. `display` is what its replica was asked to apply since the
      welcome, in order; `bytes` and `resizes` are its two parts. */
  datatype Client = Client(
    open: bool,
    ready: bool,
    mode: Mode,
    epoch: Option<string>,
    applied: nat,
    grid: Option<Grid>,
    bytes: seq<Byte>,
    resizes: seq<Resize>,
    display: seq<Event>,
    exited: bool,
    up: seq<Up>)
  {
    function Reply(m: Up): Client { this.(up := up + [m]) }

    /** A protocol error destroys the stream. */
    function Fail(): Client { this.(open := false) }

    function Receive(m: Down): Client {
      match m
      case Failure => Fail()
      case Welcome(mode', revision, epoch') =>
        if ready then Fail()
        else
          var resumed := if epoch.Some? && epoch.value != epoch' then 0 else applied;
          this.(mode := mode', ready := true, epoch := Some(epoch'), applied := resumed)
              .Reply(ResizeApplied(revision))
      case Output(end, data) =>
        if !ready || mode != Vt then Fail()
        else if end <= applied then this
        else if end - |data| != applied then Reply(Resync)
        else this.(applied := end, bytes := bytes + data, display := display + ShownAll(data))
                 .Reply(OutputAck(end))
      case ModeSwitch =>
        if !ready then Fail() else this.(mode := Semantic)
      case Keyframe(g) =>
        if !ready || !ValidGrid(g) then Fail()
        else this.(grid := Some(g), mode := Semantic).Reply(GridAck(g.revision))
      case GridPatch(p) =>
        if !ready then Fail()
        else if grid.None? || grid.value.revision != p.baseRevision then Reply(Resync)
        else
          var next := Apply(grid.value, p);
          if !ValidGrid(next.value) then this.(grid := next).Fail()
          else this.(grid := next).Reply(GridAck(next.value.revision))
      case Resized(r) =>
        if !ready || !ValidDimensions(r.cols, r.rows) || (mode == Vt && applied != r.barrier) then Fail()
        else this.(resizes := resizes + [r], display := display + [Reshaped(r)])
                 .Reply(ResizeApplied(r.revision))
      case Exit(offset) =>
        if !ready then Fail()
        else if mode == Vt && applied != offset then Fail()
        else if mode == Semantic && (grid.None? || grid.value.covers < offset) then Fail()
        else this.(exited := true)
    }
  }

  predicate ValidDimensions(cols: nat, rows: nat) {
    1 <= cols <= 1000 && 1 <= rows <= 1000
  }

  predicate ValidGrid(g: Grid) {
    && 1 <= g.revision
    && 1 <= g.cols <= 1000
    && |g.rows| <= 1000
  }

  function NewClient(epoch: Option<string>, resume: nat): Client {
    Client(true, false, Vt, epoch, resume, None, [], [], [], false, [])
  }
}
