/**
 * One attachment as a transition system: the server's committed state, the server's half of the
 * connection, the client, and the two ordered channels between them (`conn.wire` towards the client,
 * `client.up` towards the server). Every interleaving of host calls, resizes, deliveries,
 * back-pressure and drains is a list of actions.
 */
module TerminalSystem {
  import opened Basics
  import opened Grids
  import opened TerminalState

  /** An output update published together with the grid that matches it. */
  datatype Update = Update(data: seq<Byte>, state: Grid)

  /** The server's committed state. `bytes` is all output ever committed and `resizes` every resize. */
  datatype Server = Server(
    bytes: seq<Byte>,
    chunks: seq<Chunk>,
    replayBytes: int,
    grid: Option<Grid>,
    gridRevision: nat,
    resizing: bool,
    barrier: nat,
    resizes: seq<Resize>,
    resizeRevision: nat,
    exit: Option<nat>,
    deferredOutput: seq<seq<Byte>>,
    deferredUpdates: seq<Update>,
    deferredGrids: seq<Grid>,
    deferredBytes: nat)
  {
    function Offset(): nat { |bytes| }

    function Oldest(): nat { if chunks == [] then Offset() else chunks[0].start }
  }

  /** Output is cut into pieces of at most `size` bytes before it is committed. */
  function Split(start: nat, data: seq<Byte>, size: nat): seq<Chunk>
    requires 1 <= size
    decreases |data|
  {
    if data == [] then []
    else if |data| <= size then [Chunk(start, data)]
    else [Chunk(start, data[..size])] + Split(start + size, data[size..], size)
  }

  /** Drop the oldest chunks while more than `limit` bytes are retained. */
  function Trim(chunks: seq<Chunk>, retained: int, limit: nat): (seq<Chunk>, int)
    decreases |chunks|
  {
    if retained > limit && chunks != [] then Trim(chunks[1..], retained - |chunks[0].data|, limit)
    else (chunks, retained)
  }

  function CommitChunk(server: Server, chunk: Chunk, limit: nat): Server {
    var (kept, retained) := Trim(server.chunks + [chunk], server.replayBytes + |chunk.data|, limit);
    server.(bytes := server.bytes + chunk.data, chunks := kept, replayBytes := retained)
  }

  function CommitChunks(server: Server, chunks: seq<Chunk>, limit: nat): Server
    decreases |chunks|
  {
    if chunks == [] then server
    else CommitChunks(CommitChunk(server, chunks[0], limit), chunks[1..], limit)
  }

  /** The retained chunks from `offset` on, the first one cut to start there. */
  function ReplayAfter(chunks: seq<Chunk>, offset: nat): seq<Chunk>
    decreases |chunks|
  {
    if chunks == [] then []
    else if chunks[0].End() <= offset then ReplayAfter(chunks[1..], offset)
    else
      var first := if offset > chunks[0].start
                   then Chunk(offset, chunks[0].data[offset - chunks[0].start..]) else chunks[0];
      [first] + ReplayAfter(chunks[1..], offset)
  }

  datatype System = System(
    config: Config,
    hello: Hello,
    leaseOutput: nat,
    leaseResize: nat,
    server: Server,
    conn: Conn,
    client: Client,
    resizesBefore: nat)

  datatype Action =
    | SetRoom(room: nat)
    | ReceiveHello
    | PublishOutput(data: seq<Byte>)
    | PublishGrid(state: Grid, encodedBytes: nat)
    | PublishUpdate(update: Update)
    | ResizeBegin
    | ResizeEnd(cols: nat, rows: nat, succeeded: bool)
    | PublishExit
    | Drain
    | ClientReceive
    | ServerReceive
    | Disconnect

  /** The negotiated setup never changes, and the connection only evolves by its own operations. */
  predicate SameSetup(s: System, t: System) {
    t.config == s.config && t.hello == s.hello && s.conn.Grown(t.conn)
  }

  /** No exit was sent and no grid acknowledged. */
  predicate SameExit(s: System, t: System) {
    t.conn.exitSent == s.conn.exitSent && t.conn.gridAcked == s.conn.gridAcked
  }

  function CommitOutput(s: System, data: seq<Byte>): (t: System)
    requires 1 <= s.config.wireChunk
    ensures SameSetup(s, t) && t.client == s.client && SameExit(s, t)
  {
    var chunks := Split(s.server.Offset(), data, s.config.wireChunk);
    s.(server := CommitChunks(s.server, chunks, s.config.maxReplay),
       conn := s.conn.PublishAll(chunks, s.server.grid, s.config.maxBuffered))
  }

  function CommitGrid(s: System, state: Grid): (t: System)
    ensures SameSetup(s, t) && t.client == s.client && SameExit(s, t)
  {
    var next := state.(revision := s.server.gridRevision + 1);
    s.(server := s.server.(grid := Some(next), gridRevision := next.revision),
       conn := s.conn.PublishGrid(s.server.grid, next))
  }

  function CommitUpdate(s: System, update: Update): (t: System)
    requires 1 <= s.config.wireChunk
    ensures SameSetup(s, t) && t.client == s.client && SameExit(s, t)
  {
    var t := CommitOutput(s, update.data);
    CommitGrid(t, update.state.(covers := t.server.Offset()))
  }

  function CommitOutputs(s: System, outputs: seq<seq<Byte>>): (t: System)
    requires 1 <= s.config.wireChunk
    ensures SameSetup(s, t) && t.client == s.client && SameExit(s, t)
    decreases |outputs|
  {
    if outputs == [] then s else CommitOutputs(CommitOutput(s, outputs[0]), outputs[1..])
  }

  function CommitUpdates(s: System, updates: seq<Update>): (t: System)
    requires 1 <= s.config.wireChunk
    ensures SameSetup(s, t) && t.client == s.client && SameExit(s, t)
    decreases |updates|
  {
    if updates == [] then s else CommitUpdates(CommitUpdate(s, updates[0]), updates[1..])
  }

  function CommitGrids(s: System, grids: seq<Grid>): (t: System)
    ensures SameSetup(s, t) && t.client == s.client && SameExit(s, t)
    decreases |grids|
  {
    if grids == [] then s else CommitGrids(CommitGrid(s, grids[0]), grids[1..])
  }

  /** What was published during a resize is committed after it: outputs, then updates, then grids. */
  function FlushDeferred(s: System): (t: System)
    requires 1 <= s.config.wireChunk
    ensures SameSetup(s, t) && t.client == s.client && SameExit(s, t)
  {
    var server := s.server;
    var cleared := s.(server := server.(resizing := false, deferredOutput := [], deferredUpdates := [],
                                        deferredGrids := [], deferredBytes := 0));
    CommitGrids(CommitUpdates(CommitOutputs(cleared, server.deferredOutput), server.deferredUpdates),
                server.deferredGrids)
  }

  /** A successful resize is recorded and announced at the barrier taken when it began. */
  function AnnounceResize(s: System, cols: nat, rows: nat): (t: System)
    ensures SameSetup(s, t) && t.client == s.client && SameExit(s, t)
  {
    var resize := Resize(s.server.barrier, cols, rows, s.server.resizeRevision + 1);
    s.(server := s.server.(resizes := s.server.resizes + [resize], resizeRevision := resize.revision),
       conn := s.conn.Send(Resized(resize)))
  }

  function TermsFor(s: System): Terms {
    Terms(s.leaseOutput, s.leaseResize, s.server.resizeRevision, s.server.Oldest(), s.server.Offset(),
          s.server.grid, s.server.exit, ReplayAfter(s.server.chunks, s.hello.resume))
  }

  function HandleUp(s: System, m: Up): (c: Conn)
    ensures s.conn.Grown(c)
  {
    match m
    case OutputAck(offset) => s.conn.OnOutputAck(offset, s.server.exit, s.server.grid)
    case GridAck(revision) => s.conn.OnGridAck(revision, s.server.exit, s.server.grid)
    case Resync => s.conn.OnResync(s.server.Offset(), s.server.grid)
    case ResizeApplied(revision) => s.conn
  }

  /** The host may publish until the exit; a refused call changes nothing. */
  predicate MayPublish(s: System) { s.server.exit.None? }

  /** Publishing during a resize is refused once the held bytes would pass the buffer limit. */
  predicate MayDefer(s: System, size: nat) { s.server.deferredBytes + size <= s.config.maxBuffered }

  function Step(s: System, a: Action): (t: System)
    requires 1 <= s.config.wireChunk
    ensures SameSetup(s, t)
  {
    match a
    case SetRoom(room) => s.(conn := s.conn.(room := room))
    case ReceiveHello =>
      if s.conn.open && !s.conn.initialized
      then s.(conn := s.conn.Initialize(s.hello, TermsFor(s), s.config),
              resizesBefore := |s.server.resizes|)
      else s
    case PublishOutput(data) =>
      if !MayPublish(s) || data == [] then s
      else if s.server.resizing then
        if !MayDefer(s, |data|) then s
        else s.(server := s.server.(deferredOutput := s.server.deferredOutput + [data],
                                    deferredBytes := s.server.deferredBytes + |data|))
      else CommitOutput(s, data)
    case PublishGrid(state, encodedBytes) =>
      if !MayPublish(s) || state.covers > s.server.Offset() then s
      else if s.server.resizing then
        if !MayDefer(s, encodedBytes) then s
        else s.(server := s.server.(deferredGrids := s.server.deferredGrids + [state],
                                    deferredBytes := s.server.deferredBytes + encodedBytes))
      else CommitGrid(s, state)
    case PublishUpdate(update) =>
      if !MayPublish(s) then s
      else if s.server.resizing then
        if !MayDefer(s, |update.data|) then s
        else s.(server := s.server.(deferredUpdates := s.server.deferredUpdates + [update],
                                    deferredBytes := s.server.deferredBytes + |update.data|))
      else CommitUpdate(s, update)
    case ResizeBegin =>
      if s.server.resizing then s
      else s.(server := s.server.(resizing := true, barrier := s.server.Offset()))
    case ResizeEnd(cols, rows, succeeded) =>
      if !s.server.resizing || !ValidDimensions(cols, rows) then s
      else FlushDeferred(if succeeded then AnnounceResize(s, cols, rows) else s)
    case PublishExit =>
      if s.server.resizing || s.server.exit.Some? then s
      else
        var exit := Some(s.server.Offset());
        s.(server := s.server.(exit := exit), conn := s.conn.MaybeSendExit(exit, s.server.grid))
    case Drain =>
      if s.conn.open then s.(conn := s.conn.Drain()) else s
    case ClientReceive =>
      if s.client.open && s.conn.wire != []
      then s.(client := s.client.Receive(s.conn.wire[0]), conn := s.conn.(wire := s.conn.wire[1..]))
      else s
    case ServerReceive =>
      if s.conn.open && s.conn.initialized && s.client.up != []
      then s.(conn := HandleUp(s, s.client.up[0]), client := s.client.(up := s.client.up[1..]))
      else s
    case Disconnect => s.(conn := s.conn.Close().SetFlowPaused(false), client := s.client.Fail())
  }

  function Run(s: System, actions: seq<Action>): (t: System)
    requires 1 <= s.config.wireChunk
    ensures SameSetup(s, t)
    decreases |actions|
  {
    if actions == [] then s
    else Run(Step(s, actions[0]), actions[1..])
  }

  /** `chunks` are nonempty pieces of at most `size` bytes that cover `bytes` from `from` to the end. */
  predicate Tiles(chunks: seq<Chunk>, bytes: seq<Byte>, from: nat, size: nat)
    decreases |chunks|
  {
    if chunks == [] then from == |bytes|
    else
      var c := chunks[0];
      && c.start == from && 1 <= |c.data| <= size && c.End() <= |bytes|
      && bytes[from..c.End()] == c.data
      && Tiles(chunks[1..], bytes, c.End(), size)
  }

  predicate Retained(server: Server, config: Config) {
    && Tiles(server.chunks, server.bytes, server.Oldest(), config.wireChunk)
    && server.replayBytes == server.Offset() - server.Oldest()
  }

  predicate ResizesOrdered(resizes: seq<Resize>, offset: nat, revision: nat) {
    && (forall i :: 0 <= i < |resizes| ==>
          resizes[i].barrier <= offset && resizes[i].revision <= revision
          && ValidDimensions(resizes[i].cols, resizes[i].rows))
    && (forall i, j :: 0 <= i < j < |resizes| ==>
          resizes[i].barrier <= resizes[j].barrier && resizes[i].revision < resizes[j].revision)
  }

  predicate ServerOk(server: Server, config: Config) {
    && ValidConfig(config)
    && Retained(server, config)
    && ResizesOrdered(server.resizes, server.Offset(), server.resizeRevision)
    && (server.resizing ==> server.barrier == server.Offset())
    && (server.grid.Some? ==> server.grid.value.revision == server.gridRevision)
    && (!server.resizing || server.exit.Some? ==>
          server.deferredOutput == [] && server.deferredUpdates == [] && server.deferredGrids == [])
    && (server.exit.Some? ==> server.exit.value == server.Offset())
  }

  /** A client attaches to a server with any consistent history. */
  predicate Initial(s: System) {
    && ServerOk(s.server, s.config)
    && (exists mayWrite: bool :: s.conn == Attached(mayWrite, s.conn.room))
    && s.client == NewClient(s.hello.epoch, s.hello.resume)
  }
}
