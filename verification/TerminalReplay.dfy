/** The server's committed output: cutting it into chunks, bounding what is retained, and replaying it. */
module TerminalReplay {
  import opened Basics
  import opened Grids
  import opened TerminalState
  import opened TerminalSystem

  lemma {:induction false} TilesAppend(chunks: seq<Chunk>, bytes: seq<Byte>, from: nat, size: nat, last: Chunk)
    requires Tiles(chunks, bytes, from, size)
    requires last.start == |bytes| && 1 <= |last.data| <= size
    ensures Tiles(chunks + [last], bytes + last.data, from, size)
    decreases |chunks|
  {
    var all := bytes + last.data;
    if chunks == [] {
      assert all[from..last.End()] == last.data;
      assert Tiles([], all, last.End(), size);
      assert ([] + [last])[1..] == [];
    } else {
      var c := chunks[0];
      assert all[from..c.End()] == bytes[from..c.End()];
      TilesAppend(chunks[1..], bytes, c.End(), size, last);
      assert (chunks + [last])[1..] == chunks[1..] + [last];
    }
  }

  /** Retention drops whole chunks from the front and stops as soon as the rest is within the limit. */
  lemma {:induction false} TrimKeepsTail(chunks: seq<Chunk>, retained: int, bytes: seq<Byte>, from: nat,
                                         size: nat, limit: nat)
    requires Tiles(chunks, bytes, from, size)
    requires retained == |bytes| - from
    ensures var (kept, left) := Trim(chunks, retained, limit);
            && |kept| <= |chunks| && kept == chunks[|chunks| - |kept|..]
            && left == |bytes| - (if kept == [] then |bytes| else kept[0].start)
            && left <= limit
            && (kept != chunks ==> left + |chunks[|chunks| - |kept| - 1].data| > limit)
            && Tiles(kept, bytes, if kept == [] then |bytes| else kept[0].start, size)
    decreases |chunks|
  {
    if retained > limit && chunks != [] {
      TrimKeepsTail(chunks[1..], retained - |chunks[0].data|, bytes, chunks[0].End(), size, limit);
    }
  }

  lemma {:induction false} CommitChunkRetains(server: Server, chunk: Chunk, config: Config)
    requires Retained(server, config)
    requires chunk.start == server.Offset() && 1 <= |chunk.data| <= config.wireChunk
    ensures Retained(CommitChunk(server, chunk, config.maxReplay), config)
    ensures CommitChunk(server, chunk, config.maxReplay).bytes == server.bytes + chunk.data
    ensures CommitChunk(server, chunk, config.maxReplay).replayBytes <= config.maxReplay
    ensures var all, t := server.chunks + [chunk], CommitChunk(server, chunk, config.maxReplay);
            && |t.chunks| <= |all| && t.chunks == all[|all| - |t.chunks|..]
            && (t.chunks != all ==> t.replayBytes + |all[|all| - |t.chunks| - 1].data| > config.maxReplay)
  {
    TilesAppend(server.chunks, server.bytes, server.Oldest(), config.wireChunk, chunk);
    TrimKeepsTail(server.chunks + [chunk], server.replayBytes + |chunk.data|, server.bytes + chunk.data,
                  server.Oldest(), config.wireChunk, config.maxReplay);
  }

  /** The pieces of `data`, committed in order at offset |bytes|, tile the extended output. */
  lemma {:induction false} SplitTiles(bytes: seq<Byte>, data: seq<Byte>, size: nat)
    requires 1 <= size
    ensures Tiles(Split(|bytes|, data, size), bytes + data, |bytes|, size)
    decreases |data|
  {
    var all := bytes + data;
    if data == [] {
    } else if |data| <= size {
      assert all[|bytes|..|bytes| + |data|] == data;
      assert [Chunk(|bytes|, data)][1..] == [];
      assert Tiles([], all, |all|, size);
    } else {
      var front := bytes + data[..size];
      SplitTiles(front, data[size..], size);
      assert front + data[size..] == all;
      assert all[|bytes|..|bytes| + size] == data[..size];
      var rest := Split(|bytes| + size, data[size..], size);
      assert ([Chunk(|bytes|, data[..size])] + rest)[1..] == rest;
    }
  }

  /** Every piece but the last is as large as allowed. */
  lemma {:induction false} SplitIsFewest(start: nat, data: seq<Byte>, size: nat, i: nat)
    requires 1 <= size && i < |Split(start, data, size)| - 1
    ensures |Split(start, data, size)[i].data| == size
    decreases |data|
  {
    if i > 0 { SplitIsFewest(start + size, data[size..], size, i - 1); }
  }

  /** Committing output of any length appends exactly it, within the retention limit. */
  lemma {:induction false} CommitChunksAppend(server: Server, chunks: seq<Chunk>, all: seq<Byte>, config: Config)
    requires Retained(server, config)
    requires server.bytes <= all && Tiles(chunks, all, server.Offset(), config.wireChunk)
    ensures Retained(CommitChunks(server, chunks, config.maxReplay), config)
    ensures CommitChunks(server, chunks, config.maxReplay)
         == server.(bytes := all, chunks := CommitChunks(server, chunks, config.maxReplay).chunks,
                    replayBytes := CommitChunks(server, chunks, config.maxReplay).replayBytes)
    ensures chunks != [] ==> CommitChunks(server, chunks, config.maxReplay).replayBytes <= config.maxReplay
    decreases |chunks|
  {
    if chunks == [] {
      assert all == server.bytes;
    } else {
      var c := chunks[0];
      CommitChunkRetains(server, c, config);
      var next := CommitChunk(server, c, config.maxReplay);
      assert next.bytes == all[..c.End()] by {
        assert all[..c.End()] == all[..c.start] + all[c.start..c.End()];
      }
      CommitChunksAppend(next, chunks[1..], all, config);
    }
  }

  lemma {:induction false} CommitDataAppends(server: Server, data: seq<Byte>, config: Config)
    requires ValidConfig(config) && Retained(server, config)
    ensures var t := CommitChunks(server, Split(server.Offset(), data, config.wireChunk), config.maxReplay);
            Retained(t, config)
            && t == server.(bytes := server.bytes + data, chunks := t.chunks, replayBytes := t.replayBytes)
  {
    SplitTiles(server.bytes, data, config.wireChunk);
    CommitChunksAppend(server, Split(server.Offset(), data, config.wireChunk), server.bytes + data, config);
  }

  /** Replay from a retained offset is exactly the output from there to the end, in order. */
  lemma {:induction false} ReplayIsExact(chunks: seq<Chunk>, bytes: seq<Byte>, from: nat, size: nat, offset: nat)
    requires Tiles(chunks, bytes, from, size) && from <= offset <= |bytes|
    ensures Tiles(ReplayAfter(chunks, offset), bytes, offset, size)
    decreases |chunks|
  {
    if chunks != [] {
      var c := chunks[0];
      if c.End() <= offset {
        ReplayIsExact(chunks[1..], bytes, c.End(), size, offset);
      } else {
        var first := if offset > c.start then Chunk(offset, c.data[offset - c.start..]) else c;
        assert bytes[offset..c.End()] == bytes[from..c.End()][offset - from..] == first.data;
        ReplayKeepsAll(chunks[1..], bytes, c.End(), size, offset);
        assert ReplayAfter(chunks, offset)[1..] == chunks[1..];
      }
    }
  }

  lemma {:induction false} ReplayKeepsAll(chunks: seq<Chunk>, bytes: seq<Byte>, from: nat, size: nat, offset: nat)
    requires Tiles(chunks, bytes, from, size) && offset <= from
    ensures ReplayAfter(chunks, offset) == chunks
    decreases |chunks|
  {
    if chunks != [] {
      ReplayKeepsAll(chunks[1..], bytes, chunks[0].End(), size, offset);
    }
  }

  /** Concatenating pieces that tile an output from `from` gives back its bytes from there. */
  lemma {:induction false} TilesFlatten(chunks: seq<Chunk>, bytes: seq<Byte>, from: nat, size: nat)
    requires Tiles(chunks, bytes, from, size)
    ensures from <= |bytes|
    ensures Flatten(seq(|chunks|, i requires 0 <= i < |chunks| => chunks[i].data)) == bytes[from..]
    decreases |chunks|
  {
    var parts := seq(|chunks|, i requires 0 <= i < |chunks| => chunks[i].data);
    if chunks != [] {
      TilesFlatten(chunks[1..], bytes, chunks[0].End(), size);
      assert parts[1..] == seq(|chunks[1..]|, i requires 0 <= i < |chunks[1..]| => chunks[1..][i].data);
      assert bytes[from..] == bytes[from..chunks[0].End()] + bytes[chunks[0].End()..];
    }
  }
}
