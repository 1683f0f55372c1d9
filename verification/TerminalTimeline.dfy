/**
 * The order in which a VT replica is given bytes and resizes, compared with the order in which the
 * server committed them.
 */
module TerminalTimeline {
  import opened Basics
  import opened Grids
  import opened TerminalState
  import opened TerminalSystem
  import opened TerminalVt
  import opened TerminalVtRuns

  /** Output bytes from offset `from`, each resize placed at the offset it takes effect. */
  function Timeline(bytes: seq<Byte>, from: nat, resizes: seq<Resize>): seq<Event>
    decreases |bytes| + |resizes|
  {
    if resizes != [] && resizes[0].barrier <= from then [Reshaped(resizes[0])] + Timeline(bytes, from, resizes[1..])
    else if bytes != [] then [Shown(bytes[0])] + Timeline(bytes[1..], from + 1, resizes)
    else []
  }

  predicate InOrder(resizes: seq<Resize>, low: nat, high: nat) {
    && (forall i :: 0 <= i < |resizes| ==> low <= resizes[i].barrier <= high)
    && (forall i, j :: 0 <= i < j < |resizes| ==>
          resizes[i].barrier <= resizes[j].barrier && resizes[i].revision < resizes[j].revision)
  }

  lemma {:induction false} TimelineHead(bytes: seq<Byte>, from: nat, resizes: seq<Resize>)
    ensures resizes != [] && resizes[0].barrier <= from ==>
              Timeline(bytes, from, resizes) == [Reshaped(resizes[0])] + Timeline(bytes, from, resizes[1..])
    ensures bytes != [] && (resizes == [] || from < resizes[0].barrier) ==>
              Timeline(bytes, from, resizes) == [Shown(bytes[0])] + Timeline(bytes[1..], from + 1, resizes)
  {
  }

  lemma {:induction false} ShownStep(data: seq<Byte>)
    requires data != []
    ensures ShownAll(data) == [Shown(data[0])] + ShownAll(data[1..])
  {
  }

  lemma {:induction false} TimelineOutput(bytes: seq<Byte>, from: nat, resizes: seq<Resize>, more: seq<Byte>)
    requires forall r :: r in resizes ==> r.barrier <= from + |bytes|
    ensures Timeline(bytes + more, from, resizes) == Timeline(bytes, from, resizes) + ShownAll(more)
    decreases |bytes| + |resizes| + |more|
  {
    hide Timeline;
    hide ShownAll;
    assert resizes != [] ==> resizes[0] in resizes;
    TimelineHead(bytes, from, resizes);
    TimelineHead(bytes + more, from, resizes);
    if resizes != [] && resizes[0].barrier <= from {
      TimelineOutput(bytes, from, resizes[1..], more);
      Associative([Reshaped(resizes[0])], Timeline(bytes, from, resizes[1..]), ShownAll(more));
      hide *;
    } else if bytes != [] {
      assert (bytes + more)[0] == bytes[0] && (bytes + more)[1..] == bytes[1..] + more;
      TimelineOutput(bytes[1..], from + 1, resizes, more);
      Associative([Shown(bytes[0])], Timeline(bytes[1..], from + 1, resizes), ShownAll(more));
      hide *;
    } else if more != [] {
      assert resizes == [] && bytes == [] && bytes + more == more;
      TimelineOutput([], from + 1, [], more[1..]);
      assert [] + more[1..] == more[1..];
      TimelineDone(from, []);
      TimelineDone(from + 1, []);
      ShownStep(more);
    } else {
      assert resizes == [] && bytes + more == [];
      TimelineDone(from, more);
    }
  }

  lemma {:induction false} TimelineDone(from: nat, none: seq<Byte>)
    requires none == []
    ensures Timeline(none, from, []) == [] && ShownAll(none) == []
  {
  }

  lemma {:induction false} TimelineResize(bytes: seq<Byte>, from: nat, resizes: seq<Resize>, last: Resize)
    requires forall r :: r in resizes ==> r.barrier <= from + |bytes|
    requires last.barrier == from + |bytes|
    ensures Timeline(bytes, from, resizes + [last]) == Timeline(bytes, from, resizes) + [Reshaped(last)]
    decreases |bytes| + |resizes|
  {
    assert resizes != [] ==> resizes[0] in resizes;
    if resizes != [] && resizes[0].barrier <= from {
      TimelineResize(bytes, from, resizes[1..], last);
      assert (resizes + [last])[1..] == resizes[1..] + [last];
    } else if bytes != [] {
      TimelineResize(bytes[1..], from + 1, resizes, last);
      assert resizes == [] ==> (resizes + [last])[0] == last;
    } else {
      assert resizes == [];
      assert resizes + [last] == [last] && [last][1..] == [];
    }
  }

  /** The resizes applied are the first ones announced, and the next one is not behind offset `at`. */
  predicate ResizesFirst(done: seq<Resize>, announced: seq<Resize>, at: nat) {
    done <= announced && (|done| < |announced| ==> at <= announced[|done|].barrier)
  }

  /** A timeline of fewer bytes is a prefix exactly when it has the resizes that fall within it. */
  lemma {:induction false} TimelinePrefixIff(bytes: seq<Byte>, all: seq<Byte>, from: nat, done: seq<Resize>,
                                             announced: seq<Resize>)
    requires bytes <= all
    requires InOrder(done, from, from + |bytes|) && InOrder(announced, from, from + |all|)
    ensures Timeline(bytes, from, done) <= Timeline(all, from, announced)
        <==> ResizesFirst(done, announced, from + |bytes|)
    decreases |bytes| + |all| + |done| + |announced|
  {
    var mine := Timeline(bytes, from, done);
    var full := Timeline(all, from, announced);
    assert done != [] && done <= announced ==> done[0] == announced[0];
    if announced != [] && announced[0].barrier <= from {
      if done != [] && done[0].barrier <= from {
        TimelinePrefixIff(bytes, all, from, done[1..], announced[1..]);
        assert mine == [Reshaped(done[0])] + Timeline(bytes, from, done[1..]);
        assert full == [Reshaped(announced[0])] + Timeline(all, from, announced[1..]);
        ConsPrefix(Reshaped(done[0]), Timeline(bytes, from, done[1..]),
                   Reshaped(announced[0]), Timeline(all, from, announced[1..]));
        ConsResizes(done, announced);
      } else if bytes != [] {
        assert mine[0] == Shown(bytes[0]) && full[0] == Reshaped(announced[0]);
      } else {
        assert done == [];
      }
    } else if done != [] && done[0].barrier <= from {
      assert mine[0] == Reshaped(done[0]);
      assert all != [] ==> full[0] == Shown(all[0]);
    } else if bytes != [] {
      assert bytes[0] == all[0] && bytes[1..] <= all[1..];
      TimelinePrefixIff(bytes[1..], all[1..], from + 1, done, announced);
      ConsPrefix(Shown(bytes[0]), Timeline(bytes[1..], from + 1, done),
                 Shown(all[0]), Timeline(all[1..], from + 1, announced));
    } else {
      assert done == [];
    }
  }

  lemma {:induction false} ConsPrefix<T>(a: T, x: seq<T>, b: T, y: seq<T>)
    ensures [a] + x <= [b] + y <==> a == b && x <= y
  {
    if [a] + x <= [b] + y {
      assert ([a] + x)[0] == ([b] + y)[0];
      assert forall i :: 0 <= i < |x| ==> x[i] == ([a] + x)[i + 1] == ([b] + y)[i + 1] == y[i];
    }
  }

  lemma {:induction false} ConsResizes(done: seq<Resize>, announced: seq<Resize>)
    requires done != [] && announced != []
    ensures done <= announced <==> done[0] == announced[0] && done[1..] <= announced[1..]
    ensures |done| < |announced| ==> announced[|done|] == announced[1..][|done[1..]|]
  {
    assert done == [done[0]] + done[1..] && announced == [announced[0]] + announced[1..];
    ConsPrefix(done[0], done[1..], announced[0], announced[1..]);
  }

  /** A sorted selection that contains everything up to its largest member is a prefix. */
  lemma {:induction false} SelectionAt(done: seq<Resize>, announced: seq<Resize>, low: nat, high: nat, k: nat)
    requires k < |done| && InOrder(announced, low, high)
    requires forall i, j :: 0 <= i < j < |done| ==> done[i].revision < done[j].revision
    requires forall r :: r in done ==> r in announced
    requires forall r :: r in announced && r.revision <= done[|done| - 1].revision ==> r in done
    ensures k < |announced| && done[k] == announced[k]
    decreases k
  {
    if k > 0 { SelectionAt(done, announced, low, high, k - 1); }
    assert done[k] in announced;
    var m :| 0 <= m < |announced| && announced[m] == done[k];
    assert k <= m;
    assert announced[k].revision <= announced[m].revision <= done[|done| - 1].revision;
    assert announced[k] in announced && announced[k] in done;
    var n :| 0 <= n < |done| && done[n] == announced[k];
    assert n == k;
  }

  lemma {:induction false} SelectionIsPrefix(done: seq<Resize>, announced: seq<Resize>, low: nat, high: nat)
    requires InOrder(announced, low, high)
    requires forall i, j :: 0 <= i < j < |done| ==> done[i].revision < done[j].revision
    requires forall r :: r in done ==> r in announced
    requires forall r :: r in announced && done != [] && r.revision <= done[|done| - 1].revision ==> r in done
    ensures done <= announced
  {
    forall k | 0 <= k < |done| ensures k < |announced| && done[k] == announced[k] {
      SelectionAt(done, announced, low, high, k);
    }
    if done != [] { SelectionAt(done, announced, low, high, |done| - 1); }
  }

  /** What the server committed for this client: output from its resume offset, and every resize since. */
  function Committed(s: System): seq<Event>
    requires s.hello.resume <= s.server.Offset()
  {
    Timeline(s.server.bytes[s.hello.resume..], s.hello.resume, Truth(s))
  }

  predicate Attending(s: System) {
    s.conn.open && s.client.open && s.client.ready && s.client.mode == Vt
  }

  /** A resize the stream refused although the client went on past it. */
  predicate Skipped(s: System, r: Resize) {
    && r in Truth(s) && Resized(r) in s.conn.lost
    && (r.barrier < s.client.applied
        || (s.client.resizes != [] && r.revision < s.client.resizes[|s.client.resizes| - 1].revision))
  }

  /** The display so far, rebuilt from its parts. */
  predicate DisplayIsTimeline(s: System) {
    s.client.open && s.client.ready && s.client.mode == Vt ==>
      s.client.display == Timeline(s.client.bytes, s.hello.resume, s.client.resizes)
  }

  /** What a client's own fields say before a delivery: nothing shown before the welcome, then no resize
      beyond the output shown. */
  predicate ShowsInOrder(c: Client, resume: nat) {
    && (!c.ready ==> c.bytes == [] && c.resizes == [] && c.display == [])
    && (c.ready && c.mode == Vt ==>
          && c.display == Timeline(c.bytes, resume, c.resizes)
          && c.applied == resume + |c.bytes|
          && forall r :: r in c.resizes ==> r.barrier <= c.applied)
  }

  lemma {:induction false} OutputDisplays(c: Client, resume: nat, end: nat, data: seq<Byte>)
    requires ShowsInOrder(c, resume) && c.open && c.ready && c.mode == Vt
    ensures var d := c.Receive(Output(end, data)); d.display == Timeline(d.bytes, resume, d.resizes)
  {
    TimelineOutput(c.bytes, resume, c.resizes, data);
    hide Timeline;
  }

  lemma {:induction false} ResizeDisplays(c: Client, resume: nat, r: Resize)
    requires ShowsInOrder(c, resume) && c.open && c.ready && c.mode == Vt && r.barrier == c.applied
    ensures var d := c.Receive(Resized(r)); d.open ==> d.display == Timeline(d.bytes, resume, d.resizes)
  {
    TimelineResize(c.bytes, resume, c.resizes, r);
    hide Timeline;
  }

  lemma {:induction false} ReceiveDisplays(c: Client, resume: nat, m: Down)
    requires ShowsInOrder(c, resume) && c.open
    ensures var d := c.Receive(m);
            d.open && d.ready && d.mode == Vt ==> d.display == Timeline(d.bytes, resume, d.resizes)
  {
    assert Timeline([], resume, []) == [];
    hide Timeline;
    if c.ready && c.mode == Vt {
      match m
      case Output(end, data) => OutputDisplays(c, resume, end, data);
      case Resized(r) => if r.barrier == c.applied { ResizeDisplays(c, resume, r); }
      case _ =>
    }
  }

  lemma {:induction false} DeliveryDisplays(s: System)
    requires VtTracked(s) && DisplayIsTimeline(s) && s.client.open && s.conn.wire != []
    ensures DisplayIsTimeline(Delivered(s))
  {
    hide Client.Receive;
    hide Timeline;
    assert ShowsInOrder(s.client, s.hello.resume);
    hide VtTracked;
    ReceiveDisplays(s.client, s.hello.resume, s.conn.wire[0]);
  }

  lemma {:induction false} StepDisplays(s: System, a: Action)
    requires VtTracked(s) && DisplayIsTimeline(s)
    ensures DisplayIsTimeline(Step(s, a))
  {
    hide Client.Receive;
    hide Conn.Initialize;
    hide CommitOutput;
    hide CommitUpdate;
    hide CommitGrid;
    hide FlushDeferred;
    hide HandleUp;
    if a.ClientReceive? && s.client.open && s.conn.wire != [] {
      DeliveryDisplays(s);
    }
  }

  lemma {:induction false} RunDisplays(s: System, actions: seq<Action>)
    requires VtTracked(s) && DisplayIsTimeline(s)
    ensures DisplayIsTimeline(Run(s, actions)) && VtTracked(Run(s, actions))
    decreases |actions|
  {
    hide Step;
    if actions != [] {
      StepTracked(s, actions[0]);
      StepDisplays(s, actions[0]);
      RunDisplays(Step(s, actions[0]), actions[1..]);
    }
  }

  lemma {:induction false} NotSkippedIsDone(s: System)
    requires VtTracked(s) && Attending(s)
    requires forall r :: r in Truth(s) ==> !Skipped(s, r)
    ensures var done := s.client.resizes;
            forall r :: r in Truth(s) && done != [] && r.revision <= done[|done| - 1].revision ==> r in done
  {
    var done := s.client.resizes;
    var announced := Truth(s);
    forall r | r in announced && done != [] && r.revision <= done[|done| - 1].revision ensures r in done {
      if r !in done && Resized(r) !in s.conn.wire {
        assert Resized(r) in s.conn.lost && !Skipped(s, r);
        assert r.revision == done[|done| - 1].revision;
        SameRevision(s, r, done[|done| - 1]);
      }
    }
  }

  lemma {:induction false} NotSkippedIsFirst(s: System)
    requires VtTracked(s) && Attending(s)
    requires forall r :: r in Truth(s) ==> !Skipped(s, r)
    ensures ResizesFirst(s.client.resizes, Truth(s), s.client.applied)
  {
    var done := s.client.resizes;
    var announced := Truth(s);
    NotSkippedIsDone(s);
    SelectionIsPrefix(done, announced, s.hello.resume, s.server.Offset());
    if |done| < |announced| {
      var next := announced[|done|];
      assert next in announced;
      NextIsNew(s);
      if Resized(next) in s.conn.wire {
        var j :| 0 <= j < |s.conn.wire| && s.conn.wire[j] == Resized(next);
      } else {
        assert Resized(next) in s.conn.lost && !Skipped(s, next);
      }
    }
  }

  lemma {:induction false} SameRevision(s: System, a: Resize, b: Resize)
    requires VtTracked(s) && a in Truth(s) && b in Truth(s) && a.revision == b.revision
    ensures a == b
  {
    var i :| 0 <= i < |Truth(s)| && Truth(s)[i] == a;
    var j :| 0 <= j < |Truth(s)| && Truth(s)[j] == b;
    assert s.server.resizes[s.resizesBefore + i] == a && s.server.resizes[s.resizesBefore + j] == b;
  }

  lemma {:induction false} TruthOrdered(s: System)
    requires VtTracked(s)
    ensures InOrder(Truth(s), 0, s.server.Offset())
  {
    forall i | 0 <= i < |Truth(s)| ensures Truth(s)[i].barrier <= s.server.Offset() {
      assert Truth(s)[i] == s.server.resizes[s.resizesBefore + i];
    }
    forall i, j | 0 <= i < j < |Truth(s)|
      ensures Truth(s)[i].barrier <= Truth(s)[j].barrier && Truth(s)[i].revision < Truth(s)[j].revision {
      assert Truth(s)[i] == s.server.resizes[s.resizesBefore + i];
      assert Truth(s)[j] == s.server.resizes[s.resizesBefore + j];
    }
  }

  lemma {:induction false} NextIsNew(s: System)
    requires VtTracked(s) && s.client.resizes <= Truth(s) && |s.client.resizes| < |Truth(s)|
    ensures Truth(s)[|s.client.resizes|] !in s.client.resizes
  {
    TruthOrdered(s);
    forall i | 0 <= i < |s.client.resizes| ensures s.client.resizes[i] != Truth(s)[|s.client.resizes|] {
      assert s.client.resizes[i] == Truth(s)[i];
    }
  }

  /** What follows an applied prefix is neither behind the client nor older than what it applied. */
  lemma {:induction false} RestIsAhead(done: seq<Resize>, announced: seq<Resize>, at: nat, high: nat, r: Resize)
    requires InOrder(announced, 0, high) && ResizesFirst(done, announced, at)
    requires r in announced && r !in done
    ensures at <= r.barrier
    ensures done != [] ==> done[|done| - 1].revision < r.revision
  {
    var k :| 0 <= k < |announced| && announced[k] == r;
    assert forall i :: 0 <= i < |done| ==> announced[i] == done[i] && done[i] in done;
    assert announced[|done|].barrier <= announced[k].barrier;
    if done != [] {
      assert done[|done| - 1] == announced[|done| - 1];
    }
  }

  lemma {:induction false} FirstIsNotSkipped(s: System, r: Resize)
    requires VtTracked(s) && Attending(s) && r in Truth(s)
    requires ResizesFirst(s.client.resizes, Truth(s), s.client.applied)
    ensures !Skipped(s, r)
  {
    TruthOrdered(s);
    hide VtTracked;
    hide Truth;
    hide InOrder;
    hide ResizesFirst;
    if r !in s.client.resizes {
      RestIsAhead(s.client.resizes, Truth(s), s.client.applied, s.server.Offset(), r);
    }
  }

  /** A VT client's bytes are always the committed ones. What it applied, bytes and resizes interleaved,
      is a prefix of what the server committed exactly when no resize announcement was handed to a
      blocked stream and then overtaken. */
  lemma {:induction false} DisplayIsPrefixIff(s0: System, actions: seq<Action>)
    requires Initial(s0) && s0.resizesBefore <= |s0.server.resizes|
    ensures var s := Run(s0, actions);
            Attending(s) ==>
              && s.hello.resume <= s.client.applied <= s.server.Offset()
              && s.client.bytes == s.server.bytes[s.hello.resume..s.client.applied]
              && (s.client.display <= Committed(s) <==> forall r :: r in Truth(s) ==> !Skipped(s, r))
  {
    InitialTracked(s0);
    RunDisplays(s0, actions);
    var s := Run(s0, actions);
    hide VtTracked;
    hide Run;
    hide Truth;
    hide Timeline;
    hide InOrder;
    hide Skipped;
    hide ResizesFirst;
    if Attending(s) {
      ShownAreCommitted(s);
      TruthFromResume(s);
      DoneInOrder(s);
      TimelinePrefixIff(s.client.bytes, s.server.bytes[s.hello.resume..], s.hello.resume, s.client.resizes, Truth(s));
      assert forall i :: 0 <= i < |Truth(s)| ==> Truth(s)[i] in Truth(s);
      if forall r :: r in Truth(s) ==> !Skipped(s, r) { NotSkippedIsFirst(s); }
      if ResizesFirst(s.client.resizes, Truth(s), s.client.applied) {
        forall r | r in Truth(s) ensures !Skipped(s, r) { FirstIsNotSkipped(s, r); }
      }
    }
  }

  lemma {:induction false} TruthFromResume(s: System)
    requires VtTracked(s) && Attending(s)
    ensures InOrder(Truth(s), s.hello.resume, s.server.Offset())
  {
    TruthOrdered(s);
    assert forall r :: r in Truth(s) ==> s.hello.resume <= r.barrier;
    hide VtTracked;
    hide Truth;
    assert forall i :: 0 <= i < |Truth(s)| ==> Truth(s)[i] in Truth(s);
  }

  lemma {:induction false} ShownAreCommitted(s: System)
    requires VtTracked(s) && Attending(s)
    ensures s.hello.resume <= s.client.applied <= s.server.Offset()
    ensures s.client.applied == s.hello.resume + |s.client.bytes|
    ensures s.client.bytes == s.server.bytes[s.hello.resume..s.client.applied]
    ensures s.client.bytes <= s.server.bytes[s.hello.resume..]
  {
    hide ServerOk;
    hide WireOk;
    hide WelcomeOk;
    hide ResizesComing;
    hide ResizesAccounted;
    hide ResizesLost;
    hide HonestChunk;
    assert ShowsBytes(s.client, s.server.bytes);
    hide VtTracked;
  }

  lemma {:induction false} DoneInOrder(s: System)
    requires VtTracked(s) && Attending(s)
    ensures InOrder(s.client.resizes, s.hello.resume, s.client.applied)
  {
    var done := s.client.resizes;
    var truth := Truth(s);
    TruthOrdered(s);
    DoneIsAnnounced(s);
    hide VtTracked;
    hide Truth;
    forall i | 0 <= i < |done| ensures s.hello.resume <= done[i].barrier <= s.client.applied {
      assert done[i] in done;
    }
    forall i, j | 0 <= i < j < |done| ensures done[i].barrier <= done[j].barrier {
      LaterBarrier(truth, done[i], done[j], s.server.Offset());
    }
  }

  lemma {:induction false} DoneIsAnnounced(s: System)
    requires VtTracked(s) && Attending(s)
    ensures forall r :: r in s.client.resizes ==> r in Truth(s) && s.hello.resume <= r.barrier <= s.client.applied
    ensures forall i, j :: 0 <= i < j < |s.client.resizes| ==>
              s.client.resizes[i].revision < s.client.resizes[j].revision
  {
    hide ServerOk;
    hide WireOk;
    hide WelcomeOk;
    hide ResizesComing;
    hide ResizesAccounted;
    hide ResizesLost;
    hide HonestChunk;
    hide Truth;
  }

  /** Among announced resizes a later revision never takes effect earlier. */
  lemma {:induction false} LaterBarrier(announced: seq<Resize>, a: Resize, b: Resize, high: nat)
    requires InOrder(announced, 0, high) && a in announced && b in announced && a.revision < b.revision
    ensures a.barrier <= b.barrier
  {
    var i :| 0 <= i < |announced| && announced[i] == a;
    var j :| 0 <= j < |announced| && announced[j] == b;
  }
}
