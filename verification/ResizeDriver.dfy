/**
 * The driver that feeds a canonical terminal's output to the protocol and holds it back while the
 * terminal is resized (GhosttyRemoteTerminal.ts, GhosttyRemoteTerminalServerDriver).
 */
module ResizeDriver {
  import opened Basics

  type Data = seq<Byte>

  /** `Draining`: output queued before the resize is still being committed. `Performing`: the terminal is
      being resized. */
  datatype Resizing = NoResize | Draining | Performing

  /** An exit waits for the resize that was pending when it was asked for, `over` once that has ended,
      and then for `left` queued commits. */
  datatype Exiting = NoExit | AwaitResize(over: bool) | AwaitCommits(left: nat) | Exited(offset: nat)

  /** `accepted` is all output ever accepted and `committed` what the protocol was given, in order. */
  datatype Driver = Driver(
    limit: nat,
    resizing: Resizing,
    exiting: Exiting,
    queue: seq<Data>,
    held: seq<Data>,
    heldBytes: int,
    queuedBytes: int,
    committed: seq<Data>,
    failed: bool,
    accepted: seq<Data>)

  function Start(limit: nat): Driver {
    Driver(limit, NoResize, NoExit, [], [], 0, 0, [], false, [])
  }

  datatype Action =
    | PublishOutput(data: Data)
    | PrepareResize
    | PerformResize
    | FinishResize(succeeded: bool)
    | Commit(succeeded: bool)
    | PublishExit
    | ResizeSettled
    | CommitsSettled

  /** What a call of publishOutput does; a full buffer fails the protocol. */
  function Publish(d: Driver, data: Data): Driver {
    if d.exiting != NoExit then d
    else if d.queuedBytes + |data| > d.limit then d.(failed := true)
    else
      var reserved := d.(queuedBytes := d.queuedBytes + |data|);
      if d.resizing == NoResize then
        reserved.(queue := d.queue + [data], accepted := d.accepted + [data])
      else if d.heldBytes + |data| > d.limit then d.(failed := true)
      else reserved.(held := d.held + [data], heldBytes := d.heldBytes + |data|, accepted := d.accepted + [data])
  }

  function Total(parts: seq<Data>): nat {
    |Flatten(parts)|
  }

  function AfterResize(exiting: Exiting): Exiting {
    if exiting.AwaitResize? then AwaitResize(true) else exiting
  }

  /** Output held during a resize is queued after it, or given up if the resize failed. */
  function Finish(d: Driver, succeeded: bool): Driver {
    var ok := succeeded && !d.failed;
    d.(resizing := NoResize, exiting := AfterResize(d.exiting), failed := !ok,
       held := [], heldBytes := d.heldBytes - Total(d.held),
       queue := if ok then d.queue + d.held else d.queue,
       queuedBytes := if ok then d.queuedBytes else d.queuedBytes - Total(d.held))
  }

  /** The oldest queued output reaches the terminal and the protocol; a failed protocol takes nothing more. */
  function CommitHead(d: Driver, succeeded: bool): Driver
    requires d.queue != []
  {
    var ok := succeeded && !d.failed;
    d.(queue := d.queue[1..], queuedBytes := d.queuedBytes - |d.queue[0]|, failed := !ok,
       committed := if ok then d.committed + [d.queue[0]] else d.committed,
       exiting := if d.exiting.AwaitCommits? && d.exiting.left > 0 then AwaitCommits(d.exiting.left - 1)
                  else d.exiting)
  }

  function Step(d: Driver, a: Action): Driver {
    match a
    case PublishOutput(data) => Publish(d, data)
    case PrepareResize => if d.resizing != NoResize then d else d.(resizing := Draining)
    case PerformResize => if d.resizing != Draining || d.queue != [] then d else d.(resizing := Performing)
    case FinishResize(succeeded) => if d.resizing != Performing then d else Finish(d, succeeded)
    case Commit(succeeded) => if d.queue == [] then d else CommitHead(d, succeeded)
    case PublishExit => if d.exiting != NoExit then d else d.(exiting := AwaitResize(d.resizing == NoResize))
    case ResizeSettled =>
      if d.exiting != AwaitResize(true) then d else d.(exiting := AwaitCommits(|d.queue|))
    case CommitsSettled =>
      if d.exiting != AwaitCommits(0) || d.failed then d else d.(exiting := Exited(Total(d.committed)))
  }

  function Run(d: Driver, actions: seq<Action>): Driver
    decreases |actions|
  {
    if actions == [] then d else Run(Step(d, actions[0]), actions[1..])
  }

  // ----- The driver as an object -----

  class ServerDriver {
    const maxBufferedBytes: nat
    var resizing: Resizing
    var exiting: Exiting
    var operations: seq<Data>
    var heldOutput: seq<Data>
    var heldOutputBytes: int
    var queuedOutputBytes: int
    var committed: seq<Data>
    var failed: bool
    ghost var accepted: seq<Data>

    ghost function State(): Driver
      reads this
    {
      Driver(maxBufferedBytes, resizing, exiting, operations, heldOutput, heldOutputBytes,
             queuedOutputBytes, committed, failed, accepted)
    }

    constructor (limit: nat)
      ensures State() == Start(limit)
    {
      maxBufferedBytes, resizing, exiting := limit, NoResize, NoExit;
      operations, heldOutput, heldOutputBytes, queuedOutputBytes := [], [], 0, 0;
      committed, failed, accepted := [], false, [];
    }

    /** `None` when the output is refused. */
    method PublishOutput(data: Data) returns (taken: bool)
      modifies this
      ensures State() == Publish(old(State()), data)
      ensures taken <==> accepted == old(accepted) + [data]
    {
      if exiting != NoExit {
        return false;
      }
      if queuedOutputBytes + |data| > maxBufferedBytes {
        failed := true;
        return false;
      }
      queuedOutputBytes := queuedOutputBytes + |data|;
      if resizing != NoResize {
        if heldOutputBytes + |data| > maxBufferedBytes {
          queuedOutputBytes := queuedOutputBytes - |data|;
          failed := true;
          return false;
        }
        heldOutputBytes := heldOutputBytes + |data|;
        heldOutput := heldOutput + [data];
      } else {
        operations := operations + [data];
      }
      accepted := accepted + [data];
      return true;
    }

    /** The end of a resize, whether it worked or not. */
    method FinishResize(succeeded: bool)
      modifies this
      ensures State() == Finish(old(State()), succeeded)
    {
      if !succeeded {
        failed := true;
      }
      resizing := NoResize;
      assert operations + [] == operations;
      while |heldOutput| > 0
        invariant resizing == NoResize && failed == (old(failed) || !succeeded)
        invariant State() == old(State()).(resizing := NoResize, failed := failed, queue := operations,
                                           held := heldOutput, heldBytes := heldOutputBytes,
                                           queuedBytes := queuedOutputBytes)
        invariant heldOutputBytes - Total(heldOutput) == old(heldOutputBytes) - Total(old(heldOutput))
        invariant if failed then operations == old(operations)
                                 && queuedOutputBytes - Total(heldOutput) == old(queuedOutputBytes) - Total(old(heldOutput))
                  else operations + heldOutput == old(operations) + old(heldOutput)
                       && queuedOutputBytes == old(queuedOutputBytes)
        decreases |heldOutput|
      {
        var bytes := heldOutput[0];
        heldOutput := heldOutput[1..];
        heldOutputBytes := heldOutputBytes - |bytes|;
        if !failed {
          operations := operations + [bytes];
        } else {
          queuedOutputBytes := queuedOutputBytes - |bytes|;
        }
      }
      exiting := AfterResize(exiting);
    }
  }

  // ----- What every run keeps -----

  predicate Sound(d: Driver) {
    && d.queuedBytes == Total(d.queue) + Total(d.held) <= d.limit
    && d.heldBytes == Total(d.held)
    && (d.resizing == NoResize ==> d.held == [])
    && (d.resizing == Performing ==> d.queue == [])
    && d.committed <= d.accepted
    && (!d.failed ==> d.accepted == d.committed + d.queue + d.held)
    && (d.exiting == AwaitResize(true) ==> d.held == [])
    && (d.exiting.AwaitCommits? ==> d.held == [] && d.exiting.left == |d.queue|)
    && (d.exiting.Exited? ==> d.held == [] && d.queue == [] && d.exiting.offset == Total(d.committed))
    && (d.exiting.Exited? && !d.failed ==> d.committed == d.accepted)
  }

  lemma {:induction false} PublishSound(d: Driver, data: Data)
    requires Sound(d)
    ensures Sound(Publish(d, data))
  {
    FlattenSnoc(d.queue, data);
    FlattenSnoc(d.held, data);
    assert d.held == [] ==> d.committed + (d.queue + [data]) + [] == d.committed + d.queue + [] + [data];
    assert d.committed + d.queue + (d.held + [data]) == d.committed + d.queue + d.held + [data];
  }

  lemma {:induction false} FinishSound(d: Driver, succeeded: bool)
    requires Sound(d)
    ensures Sound(Finish(d, succeeded))
  {
    FlattenConcat(d.queue, d.held);
    assert d.committed + (d.queue + d.held) + [] == d.committed + d.queue + d.held;
  }

  lemma {:induction false} CommitSound(d: Driver, succeeded: bool)
    requires Sound(d) && d.queue != []
    ensures Sound(CommitHead(d, succeeded))
  {
    var head := d.queue[0];
    assert d.committed + d.queue + d.held == d.committed + [head] + d.queue[1..] + d.held;
    assert Flatten(d.queue) == head + Flatten(d.queue[1..]);
  }

  lemma {:induction false} StepSound(d: Driver, a: Action)
    requires Sound(d)
    ensures Sound(Step(d, a))
  {
    hide Publish;
    hide Finish;
    hide CommitHead;
    match a
    case PublishOutput(data) => PublishSound(d, data);
    case FinishResize(succeeded) => FinishSound(d, succeeded);
    case Commit(succeeded) => if d.queue != [] { CommitSound(d, succeeded); }
    case _ =>
  }

  lemma {:induction false} RunSound(d: Driver, actions: seq<Action>)
    requires Sound(d)
    ensures Sound(Run(d, actions))
    decreases |actions|
  {
    hide Step;
    hide Sound;
    if actions != [] {
      StepSound(d, actions[0]);
      RunSound(Step(d, actions[0]), actions[1..]);
    }
  }

  /** Accepted output reaches the protocol once, in the order it was accepted: what was committed is always
      a prefix of it, and without failures the rest is exactly what is queued and then what is held. */
  lemma {:induction false} OutputIsConserved(limit: nat, actions: seq<Action>)
    ensures var d := Run(Start(limit), actions);
            && d.committed <= d.accepted
            && (!d.failed ==> d.accepted == d.committed + d.queue + d.held)
            && d.queuedBytes == Total(d.queue) + Total(d.held) <= limit
            && (d.resizing == NoResize ==> d.held == [])
  {
    RunSound(Start(limit), actions);
    LimitStays(Start(limit), actions);
  }

  lemma {:induction false} LimitStays(d: Driver, actions: seq<Action>)
    ensures Run(d, actions).limit == d.limit
    decreases |actions|
  {
    if actions != [] { LimitStays(Step(d, actions[0]), actions[1..]); }
  }

  /** While the terminal is being resized no step commits output. */
  lemma {:induction false} NothingCommittedDuringResize(limit: nat, actions: seq<Action>, a: Action)
    ensures var d := Run(Start(limit), actions);
            d.resizing == Performing ==> Step(d, a).committed == d.committed
  {
    RunSound(Start(limit), actions);
  }

  /** The second limit, on held output alone, is never what refuses output. */
  lemma {:induction false} HeldLimitIsRedundant(limit: nat, actions: seq<Action>, data: Data)
    ensures var d := Run(Start(limit), actions);
            d.queuedBytes + |data| <= d.limit ==> d.heldBytes + |data| <= d.limit
  {
    RunSound(Start(limit), actions);
  }

  /** Without failures the exit is placed after every byte that was ever accepted. */
  lemma {:induction false} ExitCoversOutput(limit: nat, actions: seq<Action>)
    ensures var d := Run(Start(limit), actions);
            d.exiting.Exited? && !d.failed ==> d.exiting.offset == Total(d.accepted)
  {
    RunSound(Start(limit), actions);
  }

  // ----- What is accepted, and that waiting ends -----

  /** Output is taken exactly until an exit is asked for and while it fits the limit with what waits; output that
      does not fit fails the protocol. */
  lemma {:induction false} AcceptsIff(limit: nat, actions: seq<Action>, data: Data)
    ensures var d := Run(Start(limit), actions);
            var t := Step(d, PublishOutput(data));
            && (t.accepted == d.accepted + [data]
                <==> d.exiting == NoExit && Total(d.queue) + Total(d.held) + |data| <= limit)
            && (t.accepted != d.accepted + [data] ==>
                  t == if d.exiting == NoExit then d.(failed := true) else d)
            && (t.accepted == d.accepted + [data] ==>
                  if d.resizing == NoResize then t.queue == d.queue + [data] && t.held == d.held
                  else t.held == d.held + [data] && t.queue == d.queue)
  {
    RunSound(Start(limit), actions);
    LimitStays(Start(limit), actions);
    var d := Run(Start(limit), actions);
    assert d.accepted != d.accepted + [data];
  }

  lemma {:induction false} RunConcat(d: Driver, a: seq<Action>, b: seq<Action>)
    ensures Run(d, a + b) == Run(Run(d, a), b)
    decreases |a|
  {
    hide Step;
    if a == [] {
      assert a + b == b;
    } else {
      assert (a + b)[0] == a[0] && (a + b)[1..] == a[1..] + b;
      RunConcat(Step(d, a[0]), a[1..], b);
    }
  }

  lemma {:induction false} RunOne(d: Driver, a: Action)
    ensures Run(d, [a]) == Step(d, a)
  {
    hide Step;
    assert [a][1..] == [] && Run(Step(d, a), []) == Step(d, a);
  }

  function Commits(n: nat): seq<Action> { seq(n, _ => Commit(true)) }

  /** Committing everything queued. */
  lemma {:induction false} Drains(d: Driver)
    requires Sound(d) && !d.failed
    ensures var t := Run(d, Commits(|d.queue|));
            && Sound(t) && !t.failed && t.queue == [] && t.held == d.held && t.resizing == d.resizing
            && t.committed == d.committed + d.queue && t.accepted == d.accepted
            && t.exiting == if d.exiting.AwaitCommits? then AwaitCommits(0) else d.exiting
    decreases |d.queue|
  {
    if d.queue == [] {
      assert Commits(0) == [] && d.committed + [] == d.committed;
    } else {
      var next := CommitHead(d, true);
      CommitSound(d, true);
      assert Commits(|d.queue|)[1..] == Commits(|next.queue|);
      Drains(next);
      assert d.committed + [d.queue[0]] + d.queue[1..] == d.committed + d.queue;
    }
  }

  /** Without failures a resize that was asked for can be performed once the queue was committed, and what was
      held meanwhile then stands in the queue. One that fails gives up what was held and fails the protocol. */
  lemma {:induction false} ResizeEnds(limit: nat, actions: seq<Action>, succeeded: bool)
    ensures var d := Run(Start(limit), actions);
            d.resizing == Draining && !d.failed ==>
              var t := Run(d, Commits(|d.queue|) + ([PerformResize] + [FinishResize(succeeded)]));
              && t.resizing == NoResize && t.held == [] && t.committed == d.committed + d.queue
              && t.queue == (if succeeded then d.held else []) && t.failed == !succeeded
              && (d.exiting.AwaitResize? ==> t.exiting == AwaitResize(true))
  {
    RunSound(Start(limit), actions);
    var d := Run(Start(limit), actions);
    hide Run;
    if d.resizing == Draining && !d.failed {
      Drains(d);
      var u := Run(d, Commits(|d.queue|));
      RunConcat(d, Commits(|d.queue|), [PerformResize] + [FinishResize(succeeded)]);
      RunConcat(u, [PerformResize], [FinishResize(succeeded)]);
      RunOne(u, PerformResize);
      RunOne(Step(u, PerformResize), FinishResize(succeeded));
      assert [] + d.held == d.held;
    }
  }

  /** Without failures an exit that no longer waits for a resize is placed after all accepted output once the
      queue was committed. */
  lemma {:induction false} ExitComes(limit: nat, actions: seq<Action>)
    ensures var d := Run(Start(limit), actions);
            d.exiting == AwaitResize(true) && !d.failed ==>
              Run(d, [ResizeSettled] + (Commits(|d.queue|) + [CommitsSettled])).exiting == Exited(Total(d.accepted))
  {
    RunSound(Start(limit), actions);
    var d := Run(Start(limit), actions);
    hide Run;
    if d.exiting == AwaitResize(true) && !d.failed {
      var a := Step(d, ResizeSettled);
      StepSound(d, ResizeSettled);
      RunOne(d, ResizeSettled);
      RunConcat(d, [ResizeSettled], Commits(|d.queue|) + [CommitsSettled]);
      RunConcat(a, Commits(|d.queue|), [CommitsSettled]);
      Drains(a);
      RunOne(Run(a, Commits(|d.queue|)), CommitsSettled);
      assert d.accepted == d.committed + d.queue + [] == d.committed + d.queue;
    }
  }
}
