/** VT mode over whole runs: what a client has applied is a prefix of what the server committed. */
module TerminalVtRuns {
  import opened Basics
  import opened Grids
  import opened TerminalState
  import opened TerminalSystem
  import opened TerminalReplay
  import opened TerminalVt

  // ----- The server's own invariant -----

  lemma {:induction false} CommitOutputOk(s: System, data: seq<Byte>)
    requires ServerOk(s.server, s.config) && !s.server.resizing && s.server.exit.None?
    ensures var t := CommitOutput(s, data);
            && ServerOk(t.server, t.config) && !t.server.resizing && t.server.exit.None?
            && t.server.bytes == s.server.bytes + data
            && t.server.resizes == s.server.resizes && t.server.resizeRevision == s.server.resizeRevision
            && t.resizesBefore == s.resizesBefore
  {
    CommitDataAppends(s.server, data, s.config);
  }

  lemma {:induction false} CommitGridOk(s: System, state: Grid)
    requires ServerOk(s.server, s.config)
    ensures var t := CommitGrid(s, state);
            && ServerOk(t.server, t.config)
            && t.server == s.server.(grid := t.server.grid, gridRevision := t.server.gridRevision)
            && t.resizesBefore == s.resizesBefore
  {
  }

  // ----- The connection invariant -----

  /** The resizes announced since this client was welcomed. */
  function Truth(s: System): seq<Resize> {
    if s.conn.initialized && s.resizesBefore <= |s.server.resizes| then s.server.resizes[s.resizesBefore..] else []
  }

  /** Everything on the wire was committed, and no output is behind the resize that ended it. */
  predicate WireOk(wire: seq<Down>, told: Told) {
    && (forall i :: 0 <= i < |wire| ==> Truthful(wire[i], told))
    && (forall i, j :: 0 <= i < j < |wire| && wire[i].Output? && wire[j].Resized? ==>
          wire[i].end <= wire[j].resize.barrier)
  }

  /** A replay welcome is only given to a client whose offset counts in this terminal's output. */
  predicate WelcomeOk(m: Down, s: System) {
    m.Welcome? ==>
      && s.conn.initialized && m.epoch == s.config.epoch
      && (m.mode == Vt ==>
            && (s.hello.epoch.None? || s.hello.epoch == Some(m.epoch))
            && s.hello.resume <= s.server.Offset()
            && forall r :: r in Truth(s) ==> s.hello.resume <= r.barrier)
  }

  /** The client shows exactly the committed bytes up to its offset. */
  predicate ShowsBytes(c: Client, bytes: seq<Byte>) {
    |c.bytes| <= c.applied <= |bytes| && c.bytes == bytes[c.applied - |c.bytes|..c.applied]
  }

  predicate Welcomed(s: System, j: nat)
    requires j < |s.conn.wire|
  {
    s.client.ready || exists i :: 0 <= i < j && s.conn.wire[i].Welcome?
  }

  /** Announced resizes still to come, in order, none behind the client. */
  predicate ResizesComing(s: System) {
    && (forall j :: 0 <= j < |s.conn.wire| && s.conn.wire[j].Resized? && Welcomed(s, j) ==>
          s.conn.wire[j].resize in Truth(s))
    && (forall j :: 0 <= j < |s.conn.wire| && s.conn.wire[j].Resized? ==>
          s.conn.wire[j].resize.revision <= s.server.resizeRevision
          && (s.client.ready && s.client.mode == Vt ==> s.client.applied <= s.conn.wire[j].resize.barrier))
    && (forall i, j :: 0 <= i < j < |s.conn.wire| && s.conn.wire[i].Resized? && s.conn.wire[j].Resized? ==>
          s.conn.wire[i].resize.revision < s.conn.wire[j].resize.revision)
  }

  /** Resizes the client applied are announced ones, in order, each at its own barrier or earlier offset. */
  predicate ResizesDone(s: System) {
    && (forall r :: r in s.client.resizes ==>
          r in Truth(s) && (s.client.mode == Vt ==> r.barrier <= s.client.applied))
    && (forall i, j :: 0 <= i < j < |s.client.resizes| ==>
          s.client.resizes[i].revision < s.client.resizes[j].revision)
    && (forall i, j :: 0 <= i < |s.client.resizes| && 0 <= j < |s.conn.wire| && s.conn.wire[j].Resized? ==>
          s.client.resizes[i].revision < s.conn.wire[j].resize.revision)
  }

  /** Every announced resize was applied, is on the wire, or was handed to a blocked stream. */
  predicate ResizesAccounted(s: System) {
    s.conn.open ==>
      forall r :: r in Truth(s) ==>
        r in s.client.resizes || Resized(r) in s.conn.wire || Resized(r) in s.conn.lost
  }

  /** A resize handed to a blocked stream is not also on the wire or applied. */
  predicate ResizesLost(s: System) {
    && (forall j :: 0 <= j < |s.conn.lost| && s.conn.lost[j].Resized? ==>
          s.conn.lost[j].resize.revision <= s.server.resizeRevision)
    && (forall i, j :: 0 <= i < |s.conn.wire| && 0 <= j < |s.conn.lost| && s.conn.wire[i].Resized? ==>
          s.conn.wire[i] != s.conn.lost[j])
    && (forall r :: r in s.client.resizes ==> Resized(r) !in s.conn.lost)
  }

  /** A welcomed client counts in the server's epoch, and from the start if it came from another one. */
  predicate EpochKnown(s: System) {
    s.client.ready ==>
      && s.client.epoch == Some(s.config.epoch)
      && (s.hello.epoch.Some? && s.hello.epoch != s.client.epoch ==> s.client.mode == Semantic && s.client.applied == 0)
  }

  predicate VtTracked(s: System) {
    && ServerOk(s.server, s.config)
    && s.resizesBefore <= |s.server.resizes|
    && (s.client.ready ==> s.conn.initialized)
    && (s.client.open ==>
          && WireOk(s.conn.wire, Known(s.server))
          && (forall q :: q in s.conn.pendingVt ==> HonestChunk(q, s.server.bytes))
          && (forall i :: 0 <= i < |s.conn.wire| ==> WelcomeOk(s.conn.wire[i], s))
          && (!s.client.ready ==> s.client == NewClient(s.hello.epoch, s.hello.resume))
          && (s.client.ready && s.client.mode == Vt ==>
                && ShowsBytes(s.client, s.server.bytes) && s.client.applied == s.hello.resume + |s.client.bytes|
                && forall r :: r in Truth(s) ==> s.hello.resume <= r.barrier)
          && EpochKnown(s) && ResizesComing(s) && ResizesDone(s) && ResizesAccounted(s) && ResizesLost(s))
  }

  /** More output may have been committed, and an exit recorded where there was none. */
  predicate Later(old_: Told, new_: Told) {
    old_.bytes <= new_.bytes && (old_.exit.Some? ==> new_.exit == old_.exit)
  }

  lemma {:induction false} TruthfulLater(m: Down, told: Told, more: Told)
    requires Truthful(m, told) && Later(told, more)
    ensures Truthful(m, more)
  {
    if m.Output? {
      assert more.bytes[m.end - |m.data|..m.end] == told.bytes[m.end - |m.data|..m.end];
    }
  }

  lemma {:induction false} HonestChunkLater(c: Chunk, bytes: seq<Byte>, more: seq<Byte>)
    requires HonestChunk(c, bytes) && bytes <= more
    ensures HonestChunk(c, more)
  {
    assert more[c.start..c.End()] == bytes[c.start..c.End()];
  }

  /** Committing more output keeps everything said so far true. */
  lemma {:induction false} ServerGrows(s: System, t: System)
    requires VtTracked(s)
    requires t == s.(server := t.server) && ServerOk(t.server, s.config)
    requires Later(Known(s.server), Known(t.server))
    requires t.server.resizes == s.server.resizes && t.server.resizeRevision == s.server.resizeRevision
    ensures VtTracked(t)
  {
    if s.client.open {
      forall i | 0 <= i < |s.conn.wire| ensures Truthful(s.conn.wire[i], Known(t.server)) {
        TruthfulLater(s.conn.wire[i], Known(s.server), Known(t.server));
      }
      forall q | q in s.conn.pendingVt ensures HonestChunk(q, t.server.bytes) {
        HonestChunkLater(q, s.server.bytes, t.server.bytes);
      }
      assert Truth(t) == Truth(s);
      if s.client.ready && s.client.mode == Vt {
        assert t.server.bytes[s.client.applied - |s.client.bytes|..s.client.applied]
            == s.server.bytes[s.client.applied - |s.client.bytes|..s.client.applied];
      }
    }
  }

  /** More plain packets on the wire change nothing about resizes, and honest output stays honest. */
  lemma {:induction false} ConnSays(s: System, d: Conn)
    requires VtTracked(s) && Says(s.conn, d, Known(s.server)) && (d.open ==> s.conn.open)
    ensures VtTracked(s.(conn := d))
  {
    var t := s.(conn := d);
    if s.client.open {
      var wire := s.conn.wire;
      forall i | 0 <= i < |d.wire| ensures Truthful(d.wire[i], Known(s.server)) && WelcomeOk(d.wire[i], t) {
        if i < |wire| { assert d.wire[i] == wire[i]; }
      }
      assert Truth(t) == Truth(s);
      ResizesSame(s, t);
      forall r | d.open && r in Truth(t)
        ensures r in t.client.resizes || Resized(r) in d.wire || Resized(r) in d.lost {
        if Resized(r) in wire {
          var i :| 0 <= i < |wire| && wire[i] == Resized(r);
          assert d.wire[i] == Resized(r);
        } else if Resized(r) in s.conn.lost {
          var i :| 0 <= i < |s.conn.lost| && s.conn.lost[i] == Resized(r);
          assert d.lost[i] == Resized(r);
        }
      }
    }
  }

  /** A resize on the longer wire was already on the shorter one, at the same place. */
  lemma {:induction false} ResizesSame(s: System, t: System)
    requires VtTracked(s) && s.client.open
    requires t == s.(conn := t.conn) && Says(s.conn, t.conn, Known(s.server))
    requires Truth(t) == Truth(s)
    requires forall i :: 0 <= i < |t.conn.wire| ==> Truthful(t.conn.wire[i], Known(s.server))
    ensures WireOk(t.conn.wire, Known(s.server)) && ResizesComing(t) && ResizesDone(t) && ResizesLost(t)
  {
    var wire := s.conn.wire;
    forall j | 0 <= j < |t.conn.wire| && t.conn.wire[j].Resized?
      ensures j < |wire| && wire[j] == t.conn.wire[j] {
    }
    forall j | 0 <= j < |t.conn.wire| && t.conn.wire[j].Resized? && Welcomed(t, j)
      ensures t.conn.wire[j].resize in Truth(t) {
      if !s.client.ready {
        var i :| 0 <= i < j && t.conn.wire[i].Welcome?;
        assert wire[i].Welcome?;
      }
      assert Welcomed(s, j);
    }
    forall i, j | 0 <= i < j < |t.conn.wire| && t.conn.wire[i].Output? && t.conn.wire[j].Resized?
      ensures t.conn.wire[i].end <= t.conn.wire[j].resize.barrier {
      assert wire[i] == t.conn.wire[i];
    }
    forall j | 0 <= j < |t.conn.lost| && t.conn.lost[j].Resized?
      ensures j < |s.conn.lost| && s.conn.lost[j] == t.conn.lost[j] {
    }
  }

  lemma {:induction false} PublishAllBeforeHello(c: Conn, chunks: seq<Chunk>, grid: Option<Grid>, limit: nat)
    requires !c.initialized
    ensures c.PublishAll(chunks, grid, limit) == c
    decreases |chunks|
  {
    if chunks != [] {
      PublishAllBeforeHello(c, chunks[1..], grid, limit);
    }
  }

  lemma {:induction false} CommitOutputTracked(s: System, data: seq<Byte>)
    requires VtTracked(s) && !s.server.resizing && s.server.exit.None?
    ensures VtTracked(CommitOutput(s, data))
    ensures !CommitOutput(s, data).server.resizing && CommitOutput(s, data).server.exit.None?
  {
    hide Conn.PublishAll;
    hide CommitChunks;
    CommitOutputOk(s, data);
    var t := CommitOutput(s, data);
    var grown := s.(server := t.server);
    ServerGrows(s, grown);
    var chunks := Split(s.server.Offset(), data, s.config.wireChunk);
    SplitTiles(s.server.bytes, data, s.config.wireChunk);
    PublishAllSays(s.conn, chunks, s.server.grid, s.config.maxBuffered, Known(t.server), s.server.Offset(),
                   s.config.wireChunk);
    ConnSays(grown, t.conn);
    assert t == grown.(conn := t.conn);
  }

  lemma {:induction false} CommitGridTracked(s: System, state: Grid)
    requires VtTracked(s)
    ensures VtTracked(CommitGrid(s, state))
    ensures CommitGrid(s, state).server.resizing == s.server.resizing
    ensures CommitGrid(s, state).server.exit == s.server.exit
  {
    hide Conn.PublishGrid;
    var t := CommitGrid(s, state);
    CommitGridOk(s, state);
    var grown := s.(server := t.server);
    ServerGrows(s, grown);
    PublishGridSays(s.conn, s.server.grid, t.server.grid.value, Known(s.server));
    ConnSays(grown, t.conn);
    assert t == grown.(conn := t.conn);
  }

  lemma {:induction false} CommitUpdateTracked(s: System, update: Update)
    requires VtTracked(s) && !s.server.resizing && s.server.exit.None?
    ensures VtTracked(CommitUpdate(s, update))
    ensures !CommitUpdate(s, update).server.resizing && CommitUpdate(s, update).server.exit.None?
  {
    hide CommitOutput;
    hide CommitGrid;
    CommitOutputTracked(s, update.data);
    var t := CommitOutput(s, update.data);
    CommitGridTracked(t, update.state.(covers := t.server.Offset()));
  }

  lemma {:induction false} CommitOutputsTracked(s: System, outputs: seq<seq<Byte>>)
    requires VtTracked(s) && !s.server.resizing && (s.server.exit.Some? ==> outputs == [])
    ensures VtTracked(CommitOutputs(s, outputs)) && !CommitOutputs(s, outputs).server.resizing
    ensures CommitOutputs(s, outputs).server.exit == s.server.exit
    decreases |outputs|
  {
    hide CommitOutput;
    if outputs != [] {
      CommitOutputTracked(s, outputs[0]);
      CommitOutputsTracked(CommitOutput(s, outputs[0]), outputs[1..]);
    }
  }

  lemma {:induction false} CommitUpdatesTracked(s: System, updates: seq<Update>)
    requires VtTracked(s) && !s.server.resizing && (s.server.exit.Some? ==> updates == [])
    ensures VtTracked(CommitUpdates(s, updates)) && !CommitUpdates(s, updates).server.resizing
    ensures CommitUpdates(s, updates).server.exit == s.server.exit
    decreases |updates|
  {
    hide CommitUpdate;
    if updates != [] {
      CommitUpdateTracked(s, updates[0]);
      CommitUpdatesTracked(CommitUpdate(s, updates[0]), updates[1..]);
    }
  }

  lemma {:induction false} CommitGridsTracked(s: System, grids: seq<Grid>)
    requires VtTracked(s)
    ensures VtTracked(CommitGrids(s, grids))
    decreases |grids|
  {
    hide CommitGrid;
    if grids != [] {
      CommitGridTracked(s, grids[0]);
      CommitGridsTracked(CommitGrid(s, grids[0]), grids[1..]);
    }
  }

  lemma {:induction false} FlushDeferredTracked(s: System)
    requires VtTracked(s)
    ensures VtTracked(FlushDeferred(s))
  {
    hide CommitOutputs;
    hide CommitUpdates;
    hide CommitGrids;
    var server := s.server;
    var cleared := s.(server := server.(resizing := false, deferredOutput := [], deferredUpdates := [],
                                        deferredGrids := [], deferredBytes := 0));
    ServerGrows(s, cleared);
    CommitOutputsTracked(cleared, server.deferredOutput);
    var t := CommitOutputs(cleared, server.deferredOutput);
    CommitUpdatesTracked(t, server.deferredUpdates);
    CommitGridsTracked(CommitUpdates(t, server.deferredUpdates), server.deferredGrids);
  }

  /** What announcing a resize changes. */
  predicate Announced(s: System, t: System, r: Resize) {
    && t == s.(server := t.server, conn := t.conn)
    && t.server == s.server.(resizes := s.server.resizes + [r], resizeRevision := r.revision)
    && r.revision == s.server.resizeRevision + 1 && r.barrier == s.server.Offset()
    && t.conn == s.conn.(wire := t.conn.wire, lost := t.conn.lost, blocked := t.conn.blocked, room := t.conn.room)
    && (s.conn.open && !s.conn.blocked ==> t.conn.wire == s.conn.wire + [Resized(r)] && t.conn.lost == s.conn.lost)
    && (s.conn.open && s.conn.blocked ==> t.conn.wire == s.conn.wire && t.conn.lost == s.conn.lost + [Resized(r)])
    && (!s.conn.open ==> t.conn.wire == s.conn.wire && t.conn.lost == s.conn.lost)
  }

  lemma {:induction false} AnnounceIsAnnounced(s: System, cols: nat, rows: nat)
    requires VtTracked(s) && s.server.resizing
    ensures Announced(s, AnnounceResize(s, cols, rows),
                      Resize(s.server.barrier, cols, rows, s.server.resizeRevision + 1))
  {
  }

  lemma {:induction false} AnnouncedTruth(s: System, t: System, r: Resize)
    requires s.resizesBefore <= |s.server.resizes| && Announced(s, t, r)
    ensures Truth(t) == Truth(s) + (if s.conn.initialized then [r] else [])
  {
  }

  lemma {:induction false} AnnouncedWire(s: System, t: System, r: Resize)
    requires VtTracked(s) && s.client.open && Announced(s, t, r)
    ensures Truth(t) == Truth(s) + (if s.conn.initialized then [r] else [])
    ensures WireOk(t.conn.wire, Known(t.server))
    ensures forall i :: 0 <= i < |t.conn.wire| ==> WelcomeOk(t.conn.wire[i], t)
  {
    var wire := s.conn.wire;
    AnnouncedTruth(s, t, r);
    assert WireOk(wire, Known(s.server));
    assert forall i :: 0 <= i < |wire| ==> WelcomeOk(wire[i], s);
    hide VtTracked;
    hide Truth;
    assert |t.conn.wire| > |wire| ==> t.conn.wire[|wire|] == Resized(r);
    forall i | 0 <= i < |wire| ensures t.conn.wire[i] == wire[i] && WelcomeOk(t.conn.wire[i], t) {
      assert WelcomeOk(wire[i], s);
    }
    assert forall i :: 0 <= i < |wire| ==> Truthful(wire[i], Known(t.server));
  }

  lemma {:induction false} AnnouncedWelcomed(s: System, t: System, r: Resize, j: nat)
    requires VtTracked(s) && s.client.open && Announced(s, t, r)
    requires j < |t.conn.wire| && t.conn.wire[j].Resized? && Welcomed(t, j)
    ensures t.conn.wire[j].resize in Truth(t)
  {
    AnnouncedWire(s, t, r);
    var wire := s.conn.wire;
    if !s.client.ready {
      var i :| 0 <= i < j && t.conn.wire[i].Welcome?;
      assert i < |wire| && WelcomeOk(wire[i], s);
    }
    if j < |wire| {
      assert wire[j] == t.conn.wire[j] && Welcomed(s, j);
    } else {
      assert Truth(t)[|Truth(t)| - 1] == r;
    }
  }

  lemma {:induction false} AnnouncedComing(s: System, t: System, r: Resize)
    requires VtTracked(s) && s.client.open && Announced(s, t, r)
    ensures ResizesComing(t)
  {
    forall j | 0 <= j < |t.conn.wire| && t.conn.wire[j].Resized? && Welcomed(t, j)
      ensures t.conn.wire[j].resize in Truth(t) {
      AnnouncedWelcomed(s, t, r, j);
    }
    forall j | 0 <= j < |s.conn.wire| ensures t.conn.wire[j] == s.conn.wire[j] {
    }
    assert |t.conn.wire| > |s.conn.wire| ==> t.conn.wire[|s.conn.wire|] == Resized(r);
  }

  /** The announced resize is newer than all earlier ones, so it is not among them. */
  lemma {:induction false} AnnouncedLost(s: System, t: System, r: Resize)
    requires VtTracked(s) && s.client.open && Announced(s, t, r)
    ensures ResizesLost(t)
  {
    assert ResizesLost(s) && ResizesComing(s);
    forall q | q in t.client.resizes ensures Resized(q) !in t.conn.lost {
      assert q in Truth(s) && q in s.server.resizes;
      assert q.revision <= s.server.resizeRevision < r.revision;
    }
    hide VtTracked;
    hide Truth;
    assert forall j :: 0 <= j < |s.conn.wire| ==> t.conn.wire[j] == s.conn.wire[j];
    assert forall j :: 0 <= j < |s.conn.lost| ==> t.conn.lost[j] == s.conn.lost[j];
  }

  lemma {:induction false} AnnouncedHeld(s: System, t: System, r: Resize)
    requires Announced(s, t, r)
    ensures s.conn.open ==> Resized(r) in t.conn.wire || Resized(r) in t.conn.lost
    ensures forall m :: m in s.conn.wire ==> m in t.conn.wire
    ensures forall m :: m in s.conn.lost ==> m in t.conn.lost
  {
    if s.conn.open {
      if s.conn.blocked {
        assert t.conn.lost[|s.conn.lost|] == Resized(r);
      } else {
        assert t.conn.wire[|s.conn.wire|] == Resized(r);
      }
    }
  }

  lemma {:induction false} AnnouncedAccounted(s: System, t: System, r: Resize)
    requires VtTracked(s) && s.client.open && Announced(s, t, r)
    requires Truth(t) == Truth(s) + (if s.conn.initialized then [r] else [])
    ensures ResizesAccounted(t) && ResizesDone(t) && ResizesLost(t)
  {
    AnnouncedLost(s, t, r);
    AnnouncedHeld(s, t, r);
    forall q | t.conn.open && q in Truth(t)
      ensures q in t.client.resizes || Resized(q) in t.conn.wire || Resized(q) in t.conn.lost {
      if q != r {
        assert q in Truth(s);
      }
    }
    forall i, j | 0 <= i < |t.client.resizes| && 0 <= j < |t.conn.wire| && t.conn.wire[j].Resized?
      ensures t.client.resizes[i].revision < t.conn.wire[j].resize.revision {
      var done := t.client.resizes[i];
      assert done in s.client.resizes && done in Truth(s);
      assert done in s.server.resizes;
      if j < |s.conn.wire| { assert t.conn.wire[j] == s.conn.wire[j]; }
    }
  }

  lemma {:induction false} AnnouncedServer(s: System, t: System, r: Resize)
    requires ServerOk(s.server, s.config) && Announced(s, t, r) && s.server.resizing
    requires ValidDimensions(r.cols, r.rows)
    ensures ServerOk(t.server, t.config)
  {
    hide Conn.Send;
    assert t.server.Oldest() == s.server.Oldest() && t.server.Offset() == s.server.Offset();
  }

  /** The barrier of a resize is still the end of the output when it is announced, so it is announced
      behind every byte committed before it and ahead of every byte committed after it. */
  lemma {:induction false} AnnounceTracked(s: System, cols: nat, rows: nat)
    requires VtTracked(s) && s.server.resizing && ValidDimensions(cols, rows)
    ensures VtTracked(AnnounceResize(s, cols, rows))
    ensures s.server.barrier == s.server.Offset()
  {
    hide AnnounceResize;
    var t := AnnounceResize(s, cols, rows);
    var r := Resize(s.server.barrier, cols, rows, s.server.resizeRevision + 1);
    AnnounceIsAnnounced(s, cols, rows);
    AnnouncedServer(s, t, r);
    hide ServerOk;
    hide WireOk;
    hide WelcomeOk;
    hide ResizesComing;
    hide ResizesDone;
    hide ResizesAccounted;
    hide ResizesLost;
    if s.client.open {
      AnnouncedWire(s, t, r);
      AnnouncedComing(s, t, r);
      AnnouncedAccounted(s, t, r);
    }
  }

  // ----- Deliveries -----

  function Delivered(s: System): System
    requires s.conn.wire != []
  {
    s.(client := s.client.Receive(s.conn.wire[0]), conn := s.conn.(wire := s.conn.wire[1..]))
  }

  /** A client whose VT display is exactly the output up to its offset, with no announced resize behind it. */
  predicate DisplayOk(s: System) {
    s.client.ready && s.client.mode == Vt ==>
      && ShowsBytes(s.client, s.server.bytes)
      && s.client.applied == s.hello.resume + |s.client.bytes|
      && (forall r :: r in Truth(s) ==> s.hello.resume <= r.barrier)
      && (forall j :: 0 <= j < |s.conn.wire| && s.conn.wire[j].Resized? ==>
            s.client.applied <= s.conn.wire[j].resize.barrier)
      && (forall r :: r in s.client.resizes ==> r.barrier <= s.client.applied)
  }

  /** Taking any other packet off the wire keeps the account of resizes. */
  lemma {:induction false} OtherDelivered(s: System)
    requires VtTracked(s) && s.client.open && s.conn.wire != [] && !s.conn.wire[0].Resized?
    requires var t := Delivered(s);
             && t.client.open && t.client.resizes == s.client.resizes && t.client.ready
             && (s.client.ready || s.conn.wire[0].Welcome?) && s.conn.initialized
             && DisplayOk(t) && EpochKnown(t)
    ensures VtTracked(Delivered(s))
  {
    hide Client.Receive;
    hide EpochKnown;
    var t := Delivered(s);
    var rest := s.conn.wire[1..];
    forall i | 0 <= i < |rest| ensures rest[i] == s.conn.wire[i + 1] && WelcomeOk(rest[i], t) {
      assert WelcomeOk(s.conn.wire[i + 1], s);
    }
    assert Truth(t) == Truth(s);
    forall j | 0 <= j < |rest| && rest[j].Resized? ensures rest[j].resize in Truth(t) {
      if !s.client.ready {
        assert s.conn.wire[0].Welcome?;
      }
      assert Welcomed(s, j + 1);
    }
    forall r | t.conn.open && r in Truth(t)
      ensures r in t.client.resizes || Resized(r) in rest || Resized(r) in t.conn.lost {
      if Resized(r) in s.conn.wire {
        var i :| 0 <= i < |s.conn.wire| && s.conn.wire[i] == Resized(r);
        assert rest[i - 1] == Resized(r);
      }
    }
  }

  lemma {:induction false} WelcomeDelivered(s: System)
    requires VtTracked(s) && s.client.open && s.conn.wire != [] && s.conn.wire[0].Welcome?
    requires Delivered(s).client.open
    ensures VtTracked(Delivered(s))
  {
    var t := Delivered(s);
    var m := s.conn.wire[0];
    assert WelcomeOk(m, s);
    if m.mode == Vt {
      assert t.client.applied == s.hello.resume;
      assert t.server.bytes[s.hello.resume..s.hello.resume] == [];
      forall j | 0 <= j < |t.conn.wire| && t.conn.wire[j].Resized?
        ensures t.client.applied <= t.conn.wire[j].resize.barrier {
        assert s.conn.wire[j + 1] == t.conn.wire[j];
        assert Welcomed(s, j + 1);
      }
    }
    OtherDelivered(s);
  }

  lemma {:induction false} OutputDelivered(s: System)
    requires VtTracked(s) && s.client.open && s.conn.wire != [] && s.conn.wire[0].Output?
    requires Delivered(s).client.open
    ensures VtTracked(Delivered(s))
  {
    var t := Delivered(s);
    var m := s.conn.wire[0];
    var bytes := s.server.bytes;
    assert Honest(m, bytes);
    if t.client.applied != s.client.applied {
      var from := s.client.applied - |s.client.bytes|;
      assert bytes[from..m.end] == bytes[from..s.client.applied] + bytes[s.client.applied..m.end];
    }
    forall j | 0 <= j < |t.conn.wire| && t.conn.wire[j].Resized?
      ensures t.client.applied <= t.conn.wire[j].resize.barrier {
      assert s.conn.wire[j + 1] == t.conn.wire[j];
    }
    OtherDelivered(s);
  }

  /** A resize was taken off the wire and applied. */
  predicate TookResize(s: System, t: System, r: Resize) {
    && s.conn.wire != [] && s.conn.wire[0] == Resized(r) && s.client.open && t.client.open
    && t == s.(client := t.client, conn := s.conn.(wire := s.conn.wire[1..]))
    && t.client == s.client.(resizes := s.client.resizes + [r], display := t.client.display, up := t.client.up)
    && s.client.ready && (s.client.mode == Vt ==> s.client.applied == r.barrier)
  }

  lemma {:induction false} TakenWire(s: System, t: System, r: Resize)
    requires VtTracked(s) && TookResize(s, t, r)
    ensures WireOk(t.conn.wire, Known(t.server)) && Truth(t) == Truth(s)
    ensures forall i :: 0 <= i < |t.conn.wire| ==> WelcomeOk(t.conn.wire[i], t)
  {
    var rest := t.conn.wire;
    assert WireOk(s.conn.wire, Known(s.server)) && Truth(t) == Truth(s);
    assert forall i :: 0 <= i < |s.conn.wire| ==> WelcomeOk(s.conn.wire[i], s);
    hide VtTracked;
    hide Truth;
    forall i | 0 <= i < |rest| ensures rest[i] == s.conn.wire[i + 1] && WelcomeOk(rest[i], t) {
      assert WelcomeOk(s.conn.wire[i + 1], s);
    }
  }

  lemma {:induction false} TakenResizes(s: System, t: System, r: Resize)
    requires VtTracked(s) && TookResize(s, t, r) && Truth(t) == Truth(s)
    ensures ResizesComing(t) && ResizesDone(t) && ResizesAccounted(t) && ResizesLost(t)
  {
    var rest := t.conn.wire;
    assert ResizesComing(s) && ResizesDone(s) && ResizesAccounted(s) && ResizesLost(s);
    hide VtTracked;
    hide Truth;
    assert Welcomed(s, 0);
    forall j | 0 <= j < |rest|
      ensures rest[j] == s.conn.wire[j + 1] && (rest[j].Resized? ==> rest[j].resize in Truth(t)) {
      assert Welcomed(s, j + 1);
    }
    forall q | t.conn.open && q in Truth(t)
      ensures q in t.client.resizes || Resized(q) in rest || Resized(q) in t.conn.lost {
      if Resized(q) in s.conn.wire {
        var i :| 0 <= i < |s.conn.wire| && s.conn.wire[i] == Resized(q);
        if i > 0 { assert rest[i - 1] == Resized(q); }
      }
    }
    assert ResizesDone(t);
  }

  lemma {:induction false} ResizeDelivered(s: System)
    requires VtTracked(s) && s.client.open && s.conn.wire != [] && s.conn.wire[0].Resized?
    requires Delivered(s).client.open
    ensures VtTracked(Delivered(s))
  {
    var t := Delivered(s);
    var r := s.conn.wire[0].resize;
    assert TookResize(s, t, r);
    hide Client.Receive;
    TakenWire(s, t, r);
    TakenResizes(s, t, r);
    hide ResizesComing;
    hide ResizesDone;
    hide ResizesAccounted;
    hide ResizesLost;
    hide WireOk;
    hide WelcomeOk;
    hide Truth;
  }

  lemma {:induction false} ModeDelivered(s: System)
    requires VtTracked(s) && s.client.open && s.conn.wire != []
    requires var m := s.conn.wire[0]; !m.Resized? && !m.Output? && !m.Welcome?
    requires Delivered(s).client.open
    ensures VtTracked(Delivered(s))
  {
    hide ServerOk;
    hide WireOk;
    hide WelcomeOk;
    hide ResizesAccounted;
    hide ResizesLost;
    var t := Delivered(s);
    forall j | 0 <= j < |t.conn.wire| && t.conn.wire[j].Resized?
      ensures t.conn.wire[j] == s.conn.wire[j + 1] {
    }
    assert t.client.mode == Vt ==> s.client.mode == Vt;
    assert t.client.applied == s.client.applied && t.client.bytes == s.client.bytes;
    assert DisplayOk(t);
    OtherDelivered(s);
  }

  lemma {:induction false} DeliveredTracked(s: System)
    requires VtTracked(s) && s.client.open && s.conn.wire != []
    ensures VtTracked(Delivered(s))
  {
    hide Client.Receive;
    if Delivered(s).client.open {
      match s.conn.wire[0]
      case Welcome(_, _, _) => WelcomeDelivered(s);
      case Output(_, _) => OutputDelivered(s);
      case Resized(_) => ResizeDelivered(s);
      case _ => ModeDelivered(s);
    } else {
      ReadyStays(s.client, s.conn.wire[0]);
    }
  }

  lemma {:induction false} ReadyStays(c: Client, m: Down)
    ensures !c.Receive(m).open && c.open ==> c.Receive(m).ready == c.ready
  {
  }

  // ----- Steps and runs -----

  /** Resizes are counted from the hello on, before which none is announced to this client. */
  lemma {:induction false} RestartTracked(s: System)
    requires VtTracked(s) && !s.conn.initialized
    ensures VtTracked(s.(resizesBefore := |s.server.resizes|))
  {
    hide ServerOk;
    hide WireOk;
    assert Truth(s.(resizesBefore := |s.server.resizes|)) == Truth(s) == [];
  }

  lemma {:induction false} HelloTracked(s: System)
    requires VtTracked(s) && s.conn.open && !s.conn.initialized
    ensures VtTracked(Step(s, ReceiveHello))
  {
    hide WireOk;
    hide WelcomeOk;
    hide ResizesComing;
    hide ResizesDone;
    hide ResizesAccounted;
    hide ResizesLost;
    hide Says;
    hide Conn.Initialize;
    var terms := TermsFor(s);
    var d := s.conn.Initialize(s.hello, terms, s.config);
    var replay := CanReplay(s.hello, terms, s.config);
    var welcome := Welcome(if replay then Vt else Semantic, terms.resizeRevision, s.config.epoch);
    if replay {
      ReplayIsExact(s.server.chunks, s.server.bytes, s.server.Oldest(), s.config.wireChunk, s.hello.resume);
    }
    InitializeSays(s.conn, s.hello, terms, s.config, Known(s.server));
    var restarted := s.(resizesBefore := |s.server.resizes|);
    RestartTracked(s);
    if Says(s.conn, d, Known(s.server)) {
      ConnSays(restarted, d);
      assert Step(s, ReceiveHello) == restarted.(conn := d);
    } else {
      var m := restarted.(conn := s.conn.Send(welcome).(initialized := true));
      WelcomeTracked(restarted, welcome);
      ConnSays(m, d);
      assert Step(s, ReceiveHello) == m.(conn := d);
    }
  }

  /** The welcome was sent, or handed to a blocked stream, and nothing else. */
  predicate SentWelcome(s: System, t: System, welcome: Down) {
    && welcome.Welcome? && welcome.epoch == s.config.epoch && !s.conn.initialized && t.conn.initialized
    && s.resizesBefore == |s.server.resizes|
    && t == s.(conn := t.conn) && t.conn.open == s.conn.open && t.conn.pendingVt == s.conn.pendingVt
    && (t.conn.wire == s.conn.wire || t.conn.wire == s.conn.wire + [welcome])
    && (t.conn.lost == s.conn.lost || t.conn.lost == s.conn.lost + [welcome])
    && (welcome.mode == Vt ==>
          && (s.hello.epoch.None? || s.hello.epoch == Some(welcome.epoch))
          && s.hello.resume <= s.server.Offset())
  }

  lemma {:induction false} WelcomeWire(s: System, t: System, welcome: Down)
    requires VtTracked(s) && s.client.open && SentWelcome(s, t, welcome)
    ensures WireOk(t.conn.wire, Known(t.server))
    ensures forall i :: 0 <= i < |t.conn.wire| ==> WelcomeOk(t.conn.wire[i], t)
  {
    var wire := s.conn.wire;
    assert WireOk(wire, Known(s.server)) && Truth(t) == [];
    assert forall i :: 0 <= i < |wire| ==> WelcomeOk(wire[i], s);
    hide VtTracked;
    hide Truth;
    assert |t.conn.wire| > |wire| ==> t.conn.wire[|wire|] == welcome;
    forall i | 0 <= i < |wire| ensures t.conn.wire[i] == wire[i] && !wire[i].Welcome? {
    }
  }

  lemma {:induction false} WelcomeResizes(s: System, t: System, welcome: Down)
    requires VtTracked(s) && s.client.open && SentWelcome(s, t, welcome)
    ensures ResizesComing(t) && ResizesDone(t) && ResizesAccounted(t) && ResizesLost(t)
  {
    var wire := s.conn.wire;
    assert ResizesComing(s) && ResizesLost(s) && s.client.resizes == [] && !s.client.ready && Truth(t) == [];
    assert forall i :: 0 <= i < |wire| ==> WelcomeOk(wire[i], s);
    hide VtTracked;
    hide Truth;
    assert |t.conn.wire| > |wire| ==> t.conn.wire[|wire|] == welcome;
    forall j | 0 <= j < |t.conn.wire| && t.conn.wire[j].Resized?
      ensures j < |wire| && t.conn.wire[j] == wire[j] && !Welcomed(t, j) {
      assert forall i :: 0 <= i < j ==> t.conn.wire[i] == wire[i] && WelcomeOk(wire[i], s);
    }
  }

  lemma {:induction false} WelcomeTracked(s: System, welcome: Down)
    requires VtTracked(s) && s.conn.open && !s.conn.initialized && s.resizesBefore == |s.server.resizes|
    requires welcome.Welcome? && welcome.epoch == s.config.epoch
    requires welcome.mode == Vt ==>
               && (s.hello.epoch.None? || s.hello.epoch == Some(welcome.epoch))
               && s.hello.resume <= s.server.Offset()
    ensures VtTracked(s.(conn := s.conn.Send(welcome).(initialized := true)))
  {
    var t := s.(conn := s.conn.Send(welcome).(initialized := true));
    assert SentWelcome(s, t, welcome);
    hide Conn.Send;
    hide ResizesComing;
    hide ResizesDone;
    hide ResizesAccounted;
    hide ResizesLost;
    hide WireOk;
    hide WelcomeOk;
    if s.client.open {
      WelcomeWire(s, t, welcome);
      WelcomeResizes(s, t, welcome);
    }
  }

  lemma {:induction false} ServerReceiveTracked(s: System)
    requires VtTracked(s) && s.conn.open && s.conn.initialized && s.client.up != []
    ensures VtTracked(Step(s, ServerReceive))
  {
    hide HandleUp;
    var m := s.client.up[0];
    var t := s.(client := s.client.(up := s.client.up[1..]));
    if s.client.open {
      HandleUpSays(s, m);
      assert HandleUp(t, m) == HandleUp(s, m) by { SameHandling(s, t, m); }
      UpTaken(s, t);
      ConnSays(t, HandleUp(s, m));
    }
    assert Step(s, ServerReceive) == t.(conn := HandleUp(s, m));
  }

  lemma {:induction false} SameHandling(s: System, t: System, m: Up)
    requires t.conn == s.conn && t.server == s.server
    ensures HandleUp(t, m) == HandleUp(s, m)
  {
  }

  lemma {:induction false} UpTaken(s: System, t: System)
    requires VtTracked(s) && s.client.open && s.client.ready
    requires t == s.(client := s.client.(up := t.client.up))
    ensures VtTracked(t)
  {
    assert Truth(t) == Truth(s);
    forall i | 0 <= i < |t.conn.wire| ensures WelcomeOk(t.conn.wire[i], t) {
      assert WelcomeOk(s.conn.wire[i], s);
    }
    forall j | 0 <= j < |t.conn.wire| && t.conn.wire[j].Resized? && Welcomed(t, j)
      ensures t.conn.wire[j].resize in Truth(t) {
      assert Welcomed(s, j);
    }
  }

  lemma {:induction false} ExitTracked(s: System)
    requires VtTracked(s) && !s.server.resizing && s.server.exit.None?
    ensures VtTracked(Step(s, PublishExit))
  {
    hide Conn.MaybeSendExit;
    var exit := Some(s.server.Offset());
    var t := s.(server := s.server.(exit := exit));
    ServerGrows(s, t);
    ExitSays(s.conn, exit, s.server.grid, Known(t.server));
    ConnSays(t, s.conn.MaybeSendExit(exit, s.server.grid));
    assert Step(s, PublishExit) == t.(conn := s.conn.MaybeSendExit(exit, s.server.grid));
  }

  lemma {:induction false} ConnOnlyTracked(s: System, d: Conn)
    requires VtTracked(s)
    requires d == s.conn.(room := d.room, blocked := d.blocked, open := d.open, paused := d.paused)
    requires d.open ==> s.conn.open
    ensures VtTracked(s.(conn := d))
  {
    assert Says(s.conn, d, Known(s.server));
    ConnSays(s, d);
  }

  lemma {:induction false} DrainTracked(s: System)
    requires VtTracked(s) && s.conn.open
    ensures VtTracked(Step(s, Drain))
  {
    hide Conn.FlushGrid;
    var c := s.conn.(blocked := false);
    ConnOnlyTracked(s, c);
    FlushGridSays(c, Known(s.server));
    ConnSays(s.(conn := c), c.FlushGrid());
    assert Step(s, Drain) == s.(conn := c).(conn := c.FlushGrid());
  }

  lemma {:induction false} DeferTracked(s: System, a: Action)
    requires VtTracked(s) && s.server.resizing
    requires a.PublishOutput? || a.PublishGrid? || a.PublishUpdate?
    ensures VtTracked(Step(s, a))
  {
    var t := Step(s, a);
    assert t == s.(server := t.server);
    ServerGrows(s, t);
  }

  lemma {:induction false} ResizeTracked(s: System, a: Action)
    requires VtTracked(s) && (a.ResizeBegin? || a.ResizeEnd?)
    ensures VtTracked(Step(s, a))
  {
    hide FlushDeferred;
    hide AnnounceResize;
    if a.ResizeBegin? {
      ServerGrows(s, Step(s, a));
    } else if s.server.resizing && ValidDimensions(a.cols, a.rows) {
      AnnounceTracked(s, a.cols, a.rows);
      FlushDeferredTracked(if a.succeeded then AnnounceResize(s, a.cols, a.rows) else s);
    }
  }

  lemma {:induction false} StepTracked(s: System, a: Action)
    requires VtTracked(s)
    ensures VtTracked(Step(s, a))
  {
    hide CommitOutput;
    hide CommitGrid;
    hide CommitUpdate;
    hide Conn.Drain;
    hide Conn.Initialize;
    hide Conn.MaybeSendExit;
    hide HandleUp;
    hide Client.Receive;
    hide FlushDeferred;
    match a
    case SetRoom(room) => ConnOnlyTracked(s, s.conn.(room := room));
    case ReceiveHello => if s.conn.open && !s.conn.initialized { HelloTracked(s); }
    case PublishOutput(data) =>
      if s.server.resizing { DeferTracked(s, a); }
      else if MayPublish(s) { CommitOutputTracked(s, data); }
    case PublishGrid(state, size) =>
      if s.server.resizing { DeferTracked(s, a); }
      else if MayPublish(s) { CommitGridTracked(s, state); }
    case PublishUpdate(update) =>
      if s.server.resizing { DeferTracked(s, a); }
      else if MayPublish(s) { CommitUpdateTracked(s, update); }
    case ResizeBegin => ResizeTracked(s, a);
    case ResizeEnd(_, _, _) => ResizeTracked(s, a);
    case PublishExit => if !s.server.resizing && s.server.exit.None? { ExitTracked(s); }
    case Drain => if s.conn.open { DrainTracked(s); }
    case ClientReceive => if s.client.open && s.conn.wire != [] { DeliveredTracked(s); }
    case ServerReceive =>
      if s.conn.open && s.conn.initialized && s.client.up != [] { ServerReceiveTracked(s); }
    case Disconnect => DisconnectTracked(s);
  }

  lemma {:induction false} DisconnectTracked(s: System)
    requires VtTracked(s)
    ensures VtTracked(Step(s, Disconnect))
  {
  }

  lemma {:induction false} RunTracked(s: System, actions: seq<Action>)
    requires VtTracked(s)
    ensures VtTracked(Run(s, actions))
    decreases |actions|
  {
    hide Step;
    if actions != [] {
      StepTracked(s, actions[0]);
      RunTracked(Step(s, actions[0]), actions[1..]);
    }
  }

  lemma {:induction false} InitialTracked(s: System)
    requires Initial(s) && s.resizesBefore <= |s.server.resizes|
    ensures VtTracked(s)
  {
  }

  /** A client that accepts an exit has everything: all the output that was or ever will be committed, or a
      grid that covers it. */
  lemma {:induction false} ExitComesLast(s0: System, actions: seq<Action>)
    requires Initial(s0) && s0.resizesBefore <= |s0.server.resizes|
    ensures var s := Run(s0, actions);
            var t := Step(s, ClientReceive);
            !s.client.exited && t.client.exited ==>
              && t.server.exit == Some(t.server.Offset())
              && (t.client.mode == Vt ==>
                    t.hello.resume <= t.server.Offset() && t.client.bytes == t.server.bytes[t.hello.resume..])
              && (t.client.mode == Semantic ==>
                    t.client.grid.Some? && t.server.Offset() <= t.client.grid.value.covers)
  {
    hide VtTracked;
    hide Client.Receive;
    InitialTracked(s0);
    RunTracked(s0, actions);
    var s := Run(s0, actions);
    if s.client.open && s.conn.wire != [] {
      DeliveredTracked(s);
      ExitAccepted(s);
    }
  }

  lemma {:induction false} ExitAccepted(s: System)
    requires VtTracked(s) && s.client.open && s.conn.wire != [] && VtTracked(Delivered(s))
    ensures var t := Delivered(s);
            !s.client.exited && t.client.exited ==>
              && s.server.exit == Some(s.server.Offset())
              && (t.client.mode == Vt ==>
                    s.hello.resume <= s.server.Offset() && t.client.bytes == s.server.bytes[s.hello.resume..])
              && (t.client.mode == Semantic ==>
                    t.client.grid.Some? && s.server.Offset() <= t.client.grid.value.covers)
  {
    var m := s.conn.wire[0];
    var t := Delivered(s);
    if !s.client.exited && t.client.exited {
      ExitChecked(s.client, m);
      assert Truthful(m, Known(s.server));
      hide Client.Receive;
      if t.client.mode == Vt {
        assert ShowsBytes(t.client, s.server.bytes);
      }
    }
  }

  lemma {:induction false} ExitChecked(c: Client, m: Down)
    requires c.open && !c.exited && c.Receive(m).exited
    ensures m.Exit? && c.ready && c.Receive(m) == c.(exited := true)
    ensures c.mode == Vt ==> c.applied == m.outputOffset
    ensures c.mode == Semantic ==> c.grid.Some? && m.outputOffset <= c.grid.value.covers
  {
  }
}
