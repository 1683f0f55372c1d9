/**
 * What the host published is what is committed: output in the order it was accepted, whatever was held back
 * during a resize included (RemoteTerminalProtocolServer.ts).
 */
module TerminalPublishing {
  import opened Basics
  import opened Grids
  import opened TerminalState
  import opened TerminalSystem

  // ----- The host's view -----

  /** What the host knows it published: what was committed, and since a resize began the output and updates
      that wait for its end. `heldGrids` wait after the grids of `heldUpdates`. */
  datatype Books = Books(
    committed: seq<Byte>,
    outputs: seq<Byte>,
    updates: seq<Byte>,
    heldUpdates: seq<Grid>,
    heldGrids: seq<Grid>,
    held: nat,
    grid: Option<Grid>,
    revision: nat,
    resizing: bool,
    exited: bool)

  predicate Takes(b: Books, size: nat, config: Config) {
    !b.exited && (b.resizing ==> b.held + size <= config.maxBuffered)
  }

  predicate Accepts(b: Books, a: Action, config: Config) {
    match a
    case PublishOutput(data) => data != [] && Takes(b, |data|, config)
    case PublishGrid(state, size) => state.covers <= |b.committed| && Takes(b, size, config)
    case PublishUpdate(update) => Takes(b, |update.data|, config)
    case _ => false
  }

  /** A grid is numbered when it is committed. */
  function Show(b: Books, grids: seq<Grid>): Books {
    if grids == [] then b
    else
      b.(grid := Some(grids[|grids| - 1].(revision := b.revision + |grids|)), revision := b.revision + |grids|)
  }

  /** What waited is committed: all output, then the updates, whose last grid covers all of it, then the grids. */
  function Release(b: Books): Books {
    var all := b.committed + b.outputs + b.updates;
    var shown := if b.heldUpdates == [] then b
                 else Show(b, b.heldUpdates[..|b.heldUpdates| - 1]
                              + [b.heldUpdates[|b.heldUpdates| - 1].(covers := |all|)]);
    Show(shown, b.heldGrids).(committed := all, outputs := [], updates := [], heldUpdates := [], heldGrids := [],
                              held := 0, resizing := false)
  }

  function Enter(b: Books, a: Action, config: Config): Books {
    match a
    case PublishOutput(data) =>
      if !Accepts(b, a, config) then b
      else if b.resizing then b.(outputs := b.outputs + data, held := b.held + |data|)
      else b.(committed := b.committed + data)
    case PublishGrid(state, size) =>
      if !Accepts(b, a, config) then b
      else if b.resizing then b.(heldGrids := b.heldGrids + [state], held := b.held + size)
      else Show(b, [state])
    case PublishUpdate(update) =>
      if !Accepts(b, a, config) then b
      else if b.resizing then
        b.(updates := b.updates + update.data, heldUpdates := b.heldUpdates + [update.state],
           held := b.held + |update.data|)
      else
        var all := b.committed + update.data;
        Show(b, [update.state.(covers := |all|)]).(committed := all)
    case ResizeBegin => b.(resizing := true)
    case ResizeEnd(cols, rows, _) => if b.resizing && ValidDimensions(cols, rows) then Release(b) else b
    case PublishExit => if b.resizing then b else b.(exited := true)
    case _ => b
  }

  function Balance(b: Books, actions: seq<Action>, config: Config): Books
    decreases |actions|
  {
    if actions == [] then b else Balance(Enter(b, actions[0], config), actions[1..], config)
  }

  // ----- The server keeps these books -----

  function UpdateData(updates: seq<Update>): seq<seq<Byte>> {
    seq(|updates|, i requires 0 <= i < |updates| => updates[i].data)
  }

  function UpdateGrids(updates: seq<Update>): seq<Grid> {
    seq(|updates|, i requires 0 <= i < |updates| => updates[i].state)
  }

  function BooksOf(server: Server): Books {
    Books(server.bytes, Flatten(server.deferredOutput), Flatten(UpdateData(server.deferredUpdates)),
          UpdateGrids(server.deferredUpdates), server.deferredGrids, server.deferredBytes, server.grid,
          server.gridRevision, server.resizing, server.exit.Some?)
  }

  function Joined(chunks: seq<Chunk>): seq<Byte> {
    if chunks == [] then [] else chunks[0].data + Joined(chunks[1..])
  }

  lemma {:induction false} SplitJoins(start: nat, data: seq<Byte>, size: nat)
    requires 1 <= size
    ensures Joined(Split(start, data, size)) == data
    decreases |data|
  {
    if size < |data| {
      SplitJoins(start + size, data[size..], size);
      var rest := Split(start + size, data[size..], size);
      assert ([Chunk(start, data[..size])] + rest)[1..] == rest;
    } else if data != [] {
      assert [Chunk(start, data)][1..] == [];
      assert Joined([Chunk(start, data)]) == data + Joined([]);
    }
  }

  /** Committing changes only the output and what is retained of it. */
  predicate OnlyOutput(s: Server, t: Server) {
    t == s.(bytes := t.bytes, chunks := t.chunks, replayBytes := t.replayBytes)
  }

  lemma {:induction false} ChunksCommitted(server: Server, chunks: seq<Chunk>, limit: nat)
    ensures var t := CommitChunks(server, chunks, limit);
            OnlyOutput(server, t) && t.bytes == server.bytes + Joined(chunks)
    decreases |chunks|
  {
    if chunks != [] {
      ChunksCommitted(CommitChunk(server, chunks[0], limit), chunks[1..], limit);
      Associative(server.bytes, chunks[0].data, Joined(chunks[1..]));
    }
  }

  lemma {:induction false} OutputCommitted(s: System, data: seq<Byte>)
    requires 1 <= s.config.wireChunk
    ensures var t := CommitOutput(s, data);
            OnlyOutput(s.server, t.server) && t.server.bytes == s.server.bytes + data
  {
    SplitJoins(s.server.Offset(), data, s.config.wireChunk);
    ChunksCommitted(s.server, Split(s.server.Offset(), data, s.config.wireChunk), s.config.maxReplay);
  }

  lemma {:induction false} OutputsCommitted(s: System, outputs: seq<seq<Byte>>)
    requires 1 <= s.config.wireChunk
    ensures var t := CommitOutputs(s, outputs);
            OnlyOutput(s.server, t.server) && t.server.bytes == s.server.bytes + Flatten(outputs)
    decreases |outputs|
  {
    hide CommitOutput;
    if outputs != [] {
      OutputCommitted(s, outputs[0]);
      OutputsCommitted(CommitOutput(s, outputs[0]), outputs[1..]);
      Associative(s.server.bytes, outputs[0], Flatten(outputs[1..]));
    }
  }

  /** Grids committed one after the other leave the last one, numbered after all of them. */
  predicate Shows(s: Server, t: Server, grids: seq<Grid>) {
    && t.gridRevision == s.gridRevision + |grids|
    && t.grid == if grids == [] then s.grid else Some(grids[|grids| - 1].(revision := t.gridRevision))
  }

  predicate OnlyGrids(s: Server, t: Server) { t == s.(grid := t.grid, gridRevision := t.gridRevision) }

  lemma {:induction false} GridsCommitted(s: System, grids: seq<Grid>)
    ensures var t := CommitGrids(s, grids); OnlyGrids(s.server, t.server) && Shows(s.server, t.server, grids)
    decreases |grids|
  {
    if grids != [] { GridsCommitted(CommitGrid(s, grids[0]), grids[1..]); }
  }

  /** The grids of updates, of which the last covers everything. */
  function Covering(updates: seq<Update>, all: nat): seq<Grid> {
    var grids := UpdateGrids(updates);
    if grids == [] then [] else grids[..|grids| - 1] + [grids[|grids| - 1].(covers := all)]
  }

  predicate OnlyUpdates(s: Server, t: Server) {
    t == s.(bytes := t.bytes, chunks := t.chunks, replayBytes := t.replayBytes, grid := t.grid,
            gridRevision := t.gridRevision)
  }

  lemma {:induction false} UpdateCommitted(s: System, u: Update)
    requires 1 <= s.config.wireChunk
    ensures var t := CommitUpdate(s, u);
            && OnlyUpdates(s.server, t.server) && t.server.bytes == s.server.bytes + u.data
            && t.server.gridRevision == s.server.gridRevision + 1
            && t.server.grid == Some(u.state.(covers := |t.server.bytes|, revision := t.server.gridRevision))
  {
    OutputCommitted(s, u.data);
    hide CommitOutput;
  }

  lemma {:induction false} UpdatesCommitted(s: System, updates: seq<Update>)
    requires 1 <= s.config.wireChunk
    ensures var t := CommitUpdates(s, updates);
            && OnlyUpdates(s.server, t.server) && t.server.bytes == s.server.bytes + Flatten(UpdateData(updates))
            && Shows(s.server, t.server, Covering(updates, |t.server.bytes|))
    decreases |updates|
  {
    hide CommitUpdate;
    if updates != [] {
      var u, rest := updates[0], updates[1..];
      UpdateCommitted(s, u);
      UpdatesCommitted(CommitUpdate(s, u), rest);
      assert UpdateData(updates)[1..] == UpdateData(rest);
      Associative(s.server.bytes, u.data, Flatten(UpdateData(rest)));
      if rest != [] { assert UpdateGrids(updates)[|updates| - 1] == UpdateGrids(rest)[|rest| - 1]; }
    }
  }

  lemma {:induction false} ReleaseKept(s: System)
    requires 1 <= s.config.wireChunk
    ensures BooksOf(FlushDeferred(s).server) == Release(BooksOf(s.server))
    ensures var t := FlushDeferred(s).server;
            t.resizes == s.server.resizes && t.resizeRevision == s.server.resizeRevision && t.exit == s.server.exit
  {
    hide CommitOutputs;
    hide CommitUpdates;
    hide CommitGrids;
    hide Flatten;
    var server := s.server;
    var cleared := s.(server := server.(resizing := false, deferredOutput := [], deferredUpdates := [],
                                        deferredGrids := [], deferredBytes := 0));
    OutputsCommitted(cleared, server.deferredOutput);
    var t := CommitOutputs(cleared, server.deferredOutput);
    UpdatesCommitted(t, server.deferredUpdates);
    var u := CommitUpdates(t, server.deferredUpdates);
    GridsCommitted(u, server.deferredGrids);
    NothingHeld();
  }

  lemma {:induction false} NothingHeld()
    ensures Flatten<Byte>([]) == [] && UpdateData([]) == [] && UpdateGrids([]) == []
  {
  }

  lemma {:induction false} DeferOutput(s: Server, data: seq<Byte>)
    ensures Flatten(s.deferredOutput + [data]) == Flatten(s.deferredOutput) + data
  {
    FlattenSnoc(s.deferredOutput, data);
  }

  lemma {:induction false} DeferUpdate(s: Server, u: Update)
    ensures Flatten(UpdateData(s.deferredUpdates + [u])) == Flatten(UpdateData(s.deferredUpdates)) + u.data
    ensures UpdateGrids(s.deferredUpdates + [u]) == UpdateGrids(s.deferredUpdates) + [u.state]
  {
    assert UpdateData(s.deferredUpdates + [u]) == UpdateData(s.deferredUpdates) + [u.data];
    FlattenSnoc(UpdateData(s.deferredUpdates), u.data);
  }

  /** Every step of the server changes its books as the host expects. */
  lemma {:induction false} StepKeepsBooks(s: System, a: Action)
    requires 1 <= s.config.wireChunk
    ensures BooksOf(Step(s, a).server) == Enter(BooksOf(s.server), a, s.config)
  {
    hide Flatten;
    hide FlushDeferred;
    hide CommitOutput;
    hide CommitUpdate;
    hide CommitGrid;
    hide Release;
    match a
    case PublishOutput(data) =>
      OutputCommitted(s, data);
      DeferOutput(s.server, data);
    case PublishGrid(state, _) => GridCommitted(s, state);
    case PublishUpdate(update) =>
      UpdateCommitted(s, update);
      DeferUpdate(s.server, update);
    case ResizeEnd(cols, rows, succeeded) => ReleaseKept(if succeeded then AnnounceResize(s, cols, rows) else s);
    case _ =>
  }

  lemma {:induction false} GridCommitted(s: System, state: Grid)
    ensures var t := CommitGrid(s, state).server;
            && OnlyGrids(s.server, t) && t.gridRevision == s.server.gridRevision + 1
            && t.grid == Some(state.(revision := t.gridRevision))
  {
  }

  lemma {:induction false} RunKeepsBooks(s: System, actions: seq<Action>)
    requires 1 <= s.config.wireChunk
    ensures BooksOf(Run(s, actions).server) == Balance(BooksOf(s.server), actions, s.config)
    decreases |actions|
  {
    hide Step;
    hide Enter;
    hide BooksOf;
    if actions != [] {
      StepKeepsBooks(s, actions[0]);
      RunKeepsBooks(Step(s, actions[0]), actions[1..]);
    }
  }

  // ----- What the books say -----

  /** The data of a call that is accepted. */
  function Said(b: Books, a: Action, config: Config): seq<Byte> {
    if !Accepts(b, a, config) then []
    else
      match a
      case PublishOutput(data) => data
      case PublishUpdate(update) => update.data
      case _ => []
  }

  /** The data of the accepted calls, in the order of the calls. */
  function Published(b: Books, actions: seq<Action>, config: Config): seq<Byte>
    decreases |actions|
  {
    if actions == [] then []
    else Said(b, actions[0], config) + Published(Enter(b, actions[0], config), actions[1..], config)
  }

  predicate NoOutputs(actions: seq<Action>) { forall k :: 0 <= k < |actions| ==> !actions[k].PublishOutput? }

  predicate NoUpdates(actions: seq<Action>) { forall k :: 0 <= k < |actions| ==> !actions[k].PublishUpdate? }

  predicate NoGrids(actions: seq<Action>) { forall k :: 0 <= k < |actions| ==> !actions[k].PublishGrid? }

  function AllData(b: Books): seq<Byte> { b.committed + b.outputs + b.updates }

  /** Nothing waits while no resize is going on. */
  predicate Settled(b: Books) {
    !b.resizing ==> b.outputs == [] && b.updates == [] && b.heldUpdates == [] && b.heldGrids == []
  }

  lemma {:induction false} EnterSettled(b: Books, a: Action, config: Config)
    requires Settled(b)
    ensures Settled(Enter(b, a, config))
  {
  }

  lemma {:induction false} BalanceSettled(b: Books, actions: seq<Action>, config: Config)
    requires Settled(b)
    ensures Settled(Balance(b, actions, config))
    decreases |actions|
  {
    hide Enter;
    hide Settled;
    if actions != [] {
      EnterSettled(b, actions[0], config);
      BalanceSettled(Enter(b, actions[0], config), actions[1..], config);
    }
  }

  /** What an action does to the output: it is committed, waits, or everything that waited is committed. */
  predicate Extends(b: Books, d: Books, a: Action, data: seq<Byte>) {
    || (data == [] && d.committed == b.committed && d.outputs == b.outputs && d.updates == b.updates)
    || (!b.resizing && d.committed == b.committed + data && d.outputs == b.outputs && d.updates == b.updates)
    || (a.PublishOutput? && d.committed == b.committed && d.outputs == b.outputs + data && d.updates == b.updates)
    || (a.PublishUpdate? && d.committed == b.committed && d.outputs == b.outputs && d.updates == b.updates + data)
    || (data == [] && d.committed == AllData(b) && d.outputs == [] && d.updates == [])
  }

  lemma {:induction false} EnterExtends(b: Books, a: Action, config: Config)
    ensures Extends(b, Enter(b, a, config), a, Said(b, a, config))
  {
    hide Show;
    ShowsOnly(b);
  }

  lemma {:induction false} ShowsOnly(b: Books)
    ensures forall grids :: var d := Show(b, grids);
              d.committed == b.committed && d.outputs == b.outputs && d.updates == b.updates
  {
  }

  /** One action adds what it published, wherever it stands. */
  lemma {:induction false} ExtendsAdds(b: Books, d: Books, a: Action, data: seq<Byte>)
    requires Extends(b, d, a, data) && (!b.resizing ==> b.outputs == [] && b.updates == [])
    ensures multiset(AllData(d)) == multiset(AllData(b)) + multiset(data)
    ensures !a.PublishUpdate? && b.updates == [] ==> AllData(d) == AllData(b) + data && d.updates == []
    ensures !a.PublishOutput? && b.outputs == [] ==> AllData(d) == AllData(b) + data && d.outputs == []
  {
    NoMore(b.committed);
    NoMore(b.committed + b.outputs);
    NoMore(AllData(b));
    NoMore(d.committed);
    NoMore(d.committed + d.outputs);
    Associative(b.committed, b.outputs, data);
    Associative(b.committed + b.outputs, b.updates, data);
  }

  lemma {:induction false} NoMore(s: seq<Byte>)
    ensures s + [] == s
  {
  }

  lemma {:induction false} BalanceAdds(b: Books, actions: seq<Action>, config: Config)
    requires Settled(b)
    ensures var d, data := Balance(b, actions, config), Published(b, actions, config);
            && multiset(AllData(d)) == multiset(AllData(b)) + multiset(data)
            && (NoUpdates(actions) && b.updates == [] ==> AllData(d) == AllData(b) + data && d.updates == [])
            && (NoOutputs(actions) && b.outputs == [] ==> AllData(d) == AllData(b) + data && d.outputs == [])
    decreases |actions|
  {
    hide Enter;
    hide AllData;
    hide Said;
    if actions == [] {
      NoMore(AllData(b));
    } else {
      var next, rest := Enter(b, actions[0], config), Published(Enter(b, actions[0], config), actions[1..], config);
      EnterExtends(b, actions[0], config);
      ExtendsAdds(b, next, actions[0], Said(b, actions[0], config));
      EnterSettled(b, actions[0], config);
      BalanceAdds(next, actions[1..], config);
      Associative(AllData(b), Said(b, actions[0], config), rest);
    }
  }

  /** Over every run the committed output followed by what is held back is what there was at the start and the
      data of the accepted calls: in the order of the calls for a host that uses one way of publishing output,
      and otherwise byte for byte. Once no resize is going on nothing is held back. */
  lemma {:induction false} PublishedIsCommitted(s0: System, actions: seq<Action>)
    requires ServerOk(s0.server, s0.config)
    ensures var b0, s := BooksOf(s0.server), Run(s0, actions).server;
            var data := Published(b0, actions, s0.config);
            var outputs, updates := Flatten(s.deferredOutput), Flatten(UpdateData(s.deferredUpdates));
            && multiset(s.bytes + outputs + updates) == multiset(AllData(b0)) + multiset(data)
            && (NoUpdates(actions) && b0.updates == [] ==> s.bytes + outputs == AllData(b0) + data)
            && (NoOutputs(actions) && b0.outputs == [] ==> s.bytes + updates == AllData(b0) + data)
            && (!s.resizing ==> outputs == [] && s.deferredUpdates == [] && s.deferredGrids == [])
  {
    hide Run;
    hide Balance;
    var b0 := BooksOf(s0.server);
    NothingHeld();
    assert Settled(b0);
    hide ServerOk;
    hide Flatten;
    hide Published;
    RunKeepsBooks(s0, actions);
    BalanceSettled(b0, actions, s0.config);
    BalanceAdds(b0, actions, s0.config);
    var s := Run(s0, actions).server;
    var b := BooksOf(s);
    NoMore(b.committed);
    NoMore(b.committed + b.outputs);
    assert |UpdateGrids(s.deferredUpdates)| == |s.deferredUpdates|;
  }

  // ----- The grid shown is the last one published -----

  /** The newest grid published, committed or still waiting. */
  function Newest(b: Books): Option<Grid> {
    if b.heldGrids != [] then Some(b.heldGrids[|b.heldGrids| - 1])
    else if b.heldUpdates != [] then Some(b.heldUpdates[|b.heldUpdates| - 1])
    else b.grid
  }

  /** A grid but for its number and what it covers. */
  function Look(grid: Option<Grid>): Option<Grid> {
    if grid.None? then None else Some(grid.value.(covers := 0, revision := 0))
  }

  function GridSaid(b: Books, a: Action, config: Config): Option<Grid> {
    if !Accepts(b, a, config) then None
    else
      match a
      case PublishGrid(state, _) => Some(state)
      case PublishUpdate(update) => Some(update.state)
      case _ => None
  }

  /** The grid of the last accepted call that brought one. */
  function LastPublished(b: Books, actions: seq<Action>, config: Config): Option<Grid>
    decreases |actions|
  {
    if actions == [] then None
    else
      var later := LastPublished(Enter(b, actions[0], config), actions[1..], config);
      if later.Some? then later else GridSaid(b, actions[0], config)
  }

  lemma {:induction false} EnterNewest(b: Books, a: Action, config: Config)
    requires Settled(b) && (b.heldGrids == [] || !a.PublishUpdate?)
    ensures var said := GridSaid(b, a, config);
            Look(Newest(Enter(b, a, config))) == Look(if said.Some? then said else Newest(b))
    ensures !a.PublishGrid? && b.heldGrids == [] ==> Enter(b, a, config).heldGrids == []
    ensures !a.PublishUpdate? && b.heldUpdates == [] ==> Enter(b, a, config).heldUpdates == []
  {
  }

  lemma {:induction false} BalanceNewest(b: Books, actions: seq<Action>, config: Config)
    requires Settled(b) && ((NoGrids(actions) && b.heldGrids == []) || NoUpdates(actions))
    ensures var last := LastPublished(b, actions, config);
            Look(Newest(Balance(b, actions, config))) == Look(if last.Some? then last else Newest(b))
    decreases |actions|
  {
    hide Enter;
    hide Newest;
    hide Look;
    hide GridSaid;
    hide Settled;
    if actions != [] {
      EnterNewest(b, actions[0], config);
      EnterSettled(b, actions[0], config);
      BalanceNewest(Enter(b, actions[0], config), actions[1..], config);
    }
  }

  /** For a host that brings its grids in one way, the server's grid is the last one it published whenever no
      resize is going on, and before the first of the run the one there was. */
  lemma {:induction false} LastGridIsShown(s0: System, actions: seq<Action>)
    requires ServerOk(s0.server, s0.config)
    requires (NoGrids(actions) && s0.server.deferredGrids == []) || NoUpdates(actions)
    ensures var b0, s := BooksOf(s0.server), Run(s0, actions).server;
            var last := LastPublished(b0, actions, s0.config);
            !s.resizing ==> Look(s.grid) == Look(if last.Some? then last else Newest(b0))
  {
    hide Run;
    hide Balance;
    var b0 := BooksOf(s0.server);
    NothingHeld();
    assert Settled(b0);
    hide ServerOk;
    hide Flatten;
    hide LastPublished;
    RunKeepsBooks(s0, actions);
    BalanceSettled(b0, actions, s0.config);
    BalanceNewest(b0, actions, s0.config);
  }

  /** The grid covers everything committed. */
  predicate CoversAll(b: Books) { b.grid.Some? ==> b.grid.value.covers == |b.committed| }

  lemma {:induction false} EnterCovers(b: Books, a: Action, config: Config)
    requires CoversAll(b) && (b.updates != [] ==> b.heldUpdates != [])
    requires b.heldGrids == [] && b.outputs == [] && !a.PublishGrid? && !a.PublishOutput?
    ensures var d := Enter(b, a, config);
            CoversAll(d) && (d.updates != [] ==> d.heldUpdates != []) && d.heldGrids == [] && d.outputs == []
  {
  }

  lemma {:induction false} BalanceCovers(b: Books, actions: seq<Action>, config: Config)
    requires CoversAll(b) && (b.updates != [] ==> b.heldUpdates != []) && b.heldGrids == [] && b.outputs == []
    requires NoGrids(actions) && NoOutputs(actions)
    ensures CoversAll(Balance(b, actions, config))
    decreases |actions|
  {
    hide Enter;
    hide CoversAll;
    if actions != [] {
      EnterCovers(b, actions[0], config);
      BalanceCovers(Enter(b, actions[0], config), actions[1..], config);
    }
  }

  /** A host that publishes only updates always has a grid that covers all the output, from a start at which it
      had. */
  lemma {:induction false} UpdatesCoverOutput(s0: System, actions: seq<Action>)
    requires ServerOk(s0.server, s0.config) && NoGrids(actions) && NoOutputs(actions)
    requires CoversAll(BooksOf(s0.server)) && s0.server.deferredGrids == [] && Flatten(s0.server.deferredOutput) == []
    ensures var s := Run(s0, actions).server; s.grid.Some? ==> s.grid.value.covers == s.Offset()
  {
    hide Run;
    hide Balance;
    var b0 := BooksOf(s0.server);
    if b0.heldUpdates == [] {
      assert |UpdateGrids(s0.server.deferredUpdates)| == |s0.server.deferredUpdates|;
      NothingHeld();
    }
    RunKeepsBooks(s0, actions);
    BalanceCovers(b0, actions, s0.config);
  }
}
