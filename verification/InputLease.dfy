/**
 * Terminal input over reconnecting attachments (RemoteTerminalProtocolServer.ts, RemoteTerminalProtocolClient.ts).
 * Each attachment has its own pair of ordered channels; packets of an abandoned attachment may still reach the
 * server after a newer one has claimed the lease. A client learns its lease from a welcome, so one that
 * reconnects before it was ever welcomed is given a new one.
 */
module InputLease {
  import opened Basics

  const MAX_INPUT_BYTES := 64 * 1024
  const MAX_PENDING := 1024

  datatype Input = Input(sequence: nat, data: seq<Byte>)

  /** Leases are named by the order in which they were made, where the server draws random tokens. */
  datatype Reply = Welcomed(lease: nat, inputSequence: nat) | InputAck(sequence: nat)

  /** The client's input state; `pending` is its map of unacknowledged inputs in insertion order, and `lease`
      is the one a welcome named. */
  datatype Writer = Writer(
    open: bool,
    ready: bool,
    lease: Option<nat>,
    inputSequence: nat,
    lastAck: nat,
    pending: seq<Input>,
    up: seq<Input>)
  {
    /** The input is recorded before it is sent, so a write to a closed stream is still kept for later. */
    function Write(data: seq<Byte>): Writer {
      if |data| > MAX_INPUT_BYTES || |pending| >= MAX_PENDING then this
      else
        var input := Input(inputSequence + 1, data);
        this.(inputSequence := input.sequence, pending := pending + [input],
              up := if open then up + [input] else up)
    }

    /** Inputs the server has not got are sent again; the others are forgotten. */
    function OnWelcome(named: nat, received: nat): Writer {
      if ready then this.(open := false)
      else this.(lease := Some(named), pending := Above(pending, received), up := up + Above(pending, received),
                 lastAck := received, ready := true)
    }

    /** The stream ends while the replica is being resized for the welcome: the lease is known, but nothing was
        sent again or forgotten. */
    function OnWelcomeCut(named: nat): Writer {
      if ready then this.(open := false) else this.(lease := Some(named), open := false)
    }

    function OnAck(sequence: nat): Writer {
      if !ready || sequence < lastAck || sequence > inputSequence then this.(open := false)
      else this.(lastAck := sequence, pending := Above(pending, sequence))
    }

    /** A new client takes over the lease, the sequence and the unacknowledged inputs. */
    function Reconnected(): Writer {
      Writer(true, false, lease, inputSequence, 0, pending, [])
    }
  }

  function Above(inputs: seq<Input>, sequence: nat): seq<Input> {
    if inputs == [] then []
    else (if inputs[0].sequence > sequence then [inputs[0]] else []) + Above(inputs[1..], sequence)
  }

  lemma {:induction false} AboveNext(inputs: seq<Input>, i: nat, sequence: nat, kept: seq<Input>)
    requires i < |inputs|
    ensures kept + Above(inputs[i..], sequence)
         == (if inputs[i].sequence > sequence then kept + [inputs[i]] else kept) + Above(inputs[i + 1..], sequence)
  {
    var rest := Above(inputs[i + 1..], sequence);
    assert inputs[i..][0] == inputs[i] && inputs[i..][1..] == inputs[i + 1..];
    assert [] + rest == rest;
    Associative(kept, [inputs[i]], rest);
  }

  /** What became of an input the server took from a connection. */
  datatype Outcome = Duplicate | Gap | Delivered

  function Judge(leaseSequence: nat, sequence: nat): Outcome {
    if sequence <= leaseSequence then Duplicate
    else if sequence != leaseSequence + 1 then Gap
    else Delivered
  }

  // ----- The client as an object -----

  class InputWriter {
    var open: bool
    var ready: bool
    var lease: Option<nat>
    var inputSequence: nat
    var lastAck: nat
    var pending: seq<Input>
    var up: seq<Input>

    ghost function State(): Writer
      reads this
    {
      Writer(open, ready, lease, inputSequence, lastAck, pending, up)
    }

    constructor (lease: Option<nat>, inputSequence: nat, pending: seq<Input>)
      ensures State() == Writer(true, false, lease, inputSequence, 0, pending, [])
    {
      this.lease, this.inputSequence, this.pending := lease, inputSequence, pending;
      open, ready, lastAck, up := true, false, 0, [];
    }

    method Write(data: seq<Byte>)
      modifies this
      ensures State() == old(State()).Write(data)
    {
      if |data| > MAX_INPUT_BYTES || |pending| >= MAX_PENDING {
        return;
      }
      inputSequence := inputSequence + 1;
      pending := pending + [Input(inputSequence, data)];
      if open {
        up := up + [Input(inputSequence, data)];
      }
    }

    /** `cut`: the stream has ended by the time the replica is resized. */
    method OnWelcome(named: nat, received: nat, cut: bool)
      modifies this
      ensures State() == if cut then old(State()).OnWelcomeCut(named) else old(State()).OnWelcome(named, received)
    {
      if ready {
        open := false;
        return;
      }
      lease := Some(named);
      if cut {
        open := false;
        return;
      }
      pending := Resend(received);
      lastAck := received;
      ready := true;
    }

    /** Walk the pending inputs: send again what the server has not received, drop the rest. */
    method Resend(received: nat) returns (kept: seq<Input>)
      modifies `up
      ensures kept == Above(pending, received) && up == old(up) + kept
    {
      kept := [];
      var i := 0;
      while i < |pending|
        invariant 0 <= i <= |pending|
        invariant kept + Above(pending[i..], received) == Above(pending, received)
        invariant up == old(up) + kept
      {
        AboveNext(pending, i, received, kept);
        if pending[i].sequence > received {
          up := up + [pending[i]];
          kept := kept + [pending[i]];
        }
        i := i + 1;
      }
    }

    method OnAck(sequence: nat)
      modifies this
      ensures State() == old(State()).OnAck(sequence)
    {
      if !ready || sequence < lastAck || sequence > inputSequence {
        open := false;
        return;
      }
      lastAck := sequence;
      var kept: seq<Input> := [];
      for i := 0 to |pending|
        invariant State() == old(State()).(lastAck := sequence)
        invariant kept + Above(pending[i..], sequence) == Above(pending, sequence)
      {
        AboveNext(pending, i, sequence, kept);
        if pending[i].sequence > sequence {
          kept := kept + [pending[i]];
        }
      }
      pending := kept;
    }
  }

  // ----- The system -----

  /** `active` is the attachment that holds the lease; an evicted lease has made room for others. */
  datatype Lease = Lease(sequence: nat, active: Option<nat>, evicted: bool)

  /** The server's side of one attachment: the lease its hello asked for, and the one it was given. */
  datatype Link = Link(
    open: bool,
    requested: Option<nat>,
    lease: Option<nat>,
    failed: bool,
    up: seq<Input>,
    down: seq<Reply>)

  function NewLink(requested: Option<nat>): Link { Link(true, requested, None, false, [], []) }

  /** An input the process was given, and the lease it came under. */
  datatype Given = Given(lease: nat, input: Input)

  /** `links[..|links| - 1]` are abandoned attachments, whose clients send nothing more; the writer's own inputs
      wait in `writer.up`. */
  datatype System = System(
    written: seq<seq<Byte>>,
    delivered: seq<Given>,
    leases: seq<Lease>,
    writer: Writer,
    links: seq<Link>)

  datatype Action =
    | Write(data: seq<Byte>)
    | ClientReceive
    | ClientCut
    | ClientClose
    | Reconnect
    | ServerHello(link: nat)
    | ServerInput(link: nat, replyLost: bool)
    | ServerClose(link: nat)
    | Evict(lease: nat)

  function Inputs(s: System, i: nat): seq<Input>
    requires i < |s.links|
  {
    if i == |s.links| - 1 then s.writer.up else s.links[i].up
  }

  function LeaseAt(s: System, t: nat): Lease {
    if t < |s.leases| then s.leases[t] else Lease(0, None, true)
  }

  function WithLease(s: System, t: nat, l: Lease): System {
    if t < |s.leases| then s.(leases := s.leases[t := l]) else s
  }

  /** Take the first input off an attachment's channel. */
  function Taken(s: System, i: nat): System
    requires i < |s.links| && Inputs(s, i) != []
  {
    if i == |s.links| - 1 then s.(writer := s.writer.(up := s.writer.up[1..]))
    else s.(links := s.links[i := s.links[i].(up := s.links[i].up[1..])])
  }

  function Released(s: System, i: nat): System
    requires i < |s.links|
  {
    var t := s.(links := s.links[i := s.links[i].(open := false)]);
    match s.links[i].lease
    case None => t
    case Some(n) => if LeaseAt(s, n).active == Some(i) then WithLease(t, n, LeaseAt(s, n).(active := None)) else t
  }

  function Replied(s: System, i: nat, reply: Reply, lost: bool): System
    requires i < |s.links|
  {
    if !s.links[i].open || lost then s else s.(links := s.links[i := s.links[i].(down := s.links[i].down + [reply])])
  }

  /** The server fails the attachment. */
  function Refused(s: System, i: nat): System
    requires i < |s.links|
  {
    Released(s.(links := s.links[i := s.links[i].(failed := true)]), i)
  }

  /** The attachment holds the lease `n`. */
  function Claimed(s: System, i: nat, n: nat): System
    requires i < |s.links|
  {
    WithLease(s, n, LeaseAt(s, n).(active := Some(i))).(links := s.links[i := s.links[i].(lease := Some(n))])
  }

  /** A hello that names no lease is given a new one. */
  function Minted(s: System): System { s.(leases := s.leases + [Lease(0, None, false)]) }

  predicate Unavailable(s: System, i: nat, n: nat) {
    var l := LeaseAt(s, n);
    l.evicted || (l.active.Some? && l.active != Some(i))
  }

  /** The server handles the hello of an attachment. One that has to be turned away because every lease the
      server may keep is held is closed instead (`ServerClose`). */
  function Hello(s: System, i: nat): System
    requires i < |s.links|
  {
    match s.links[i].requested
    case None => Replied(Claimed(Minted(s), i, |s.leases|), i, Welcomed(|s.leases|, 0), false)
    case Some(n) =>
      if Unavailable(s, i, n) then Refused(s, i)
      else Replied(Claimed(s, i, n), i, Welcomed(n, LeaseAt(s, n).sequence), false)
  }

  /** The lease `n` records an input that the process was given. */
  function Advanced(s: System, n: nat, input: Input): System {
    WithLease(s, n, LeaseAt(s, n).(sequence := input.sequence)).(delivered := s.delivered + [Given(n, input)])
  }

  /** The server handles one input: it hands it to the process, ignores it, or fails the attachment. */
  function Receive(s: System, i: nat, lost: bool): System
    requires i < |s.links| && s.links[i].lease.Some? && Inputs(s, i) != []
  {
    var n, input := s.links[i].lease.value, Inputs(s, i)[0];
    var t := Taken(s, i);
    if LeaseAt(s, n).evicted then Refused(t, i)
    else
      match Judge(LeaseAt(s, n).sequence, input.sequence)
      case Duplicate => Replied(t, i, InputAck(input.sequence), lost)
      case Gap => Refused(t, i)
      case Delivered => Replied(Advanced(t, n, input), i, InputAck(input.sequence), lost)
  }

  function Step(s: System, a: Action): System {
    if s.links == [] then s
    else
      var last := |s.links| - 1;
      match a
      case Write(data) =>
        var writer := s.writer.Write(data);
        s.(writer := writer, written := if writer == s.writer then s.written else s.written + [data])
      case ClientReceive => if !Hears(s) then s else Heard(s, false)
      case ClientCut => if !Hears(s) || !s.links[last].down[0].Welcomed? then s else Heard(s, true)
      case ClientClose => s.(writer := s.writer.(open := false))
      case Reconnect =>
        s.(writer := s.writer.Reconnected(),
           links := s.links[last := s.links[last].(up := s.writer.up)] + [NewLink(s.writer.lease)])
      case ServerHello(i) =>
        if i >= |s.links| || !s.links[i].open || s.links[i].lease.Some? || s.links[i].failed then s else Hello(s, i)
      case ServerInput(i, lost) =>
        if i >= |s.links| || s.links[i].lease.None? || s.links[i].failed || Inputs(s, i) == [] then s
        else Receive(s, i, lost)
      case ServerClose(i) => if i >= |s.links| then s else Released(s, i)
      case Evict(n) => if LeaseAt(s, n).active.Some? then s else WithLease(s, n, LeaseAt(s, n).(evicted := true))
  }

  predicate Hears(s: System) { s.links != [] && s.writer.open && s.links[|s.links| - 1].down != [] }

  /** The client handles the first reply on its channel. */
  function Heard(s: System, cut: bool): System
    requires Hears(s)
  {
    var last := |s.links| - 1;
    var reply := s.links[last].down[0];
    s.(links := s.links[last := s.links[last].(down := s.links[last].down[1..])],
       writer := match reply
                 case Welcomed(n, received) => if cut then s.writer.OnWelcomeCut(n) else s.writer.OnWelcome(n, received)
                 case InputAck(sequence) => s.writer.OnAck(sequence))
  }

  function Run(s: System, actions: seq<Action>): System
    decreases |actions|
  {
    if actions == [] then s else Run(Step(s, actions[0]), actions[1..])
  }

  const START := System([], [], [], Writer(true, false, None, 0, 0, [], []), [NewLink(None)])

  // ----- Delivered once, in order, and never forgotten -----

  predicate Genuine(input: Input, written: seq<seq<Byte>>) {
    1 <= input.sequence <= |written| && input.data == written[input.sequence - 1]
  }

  predicate AllGenuine(inputs: seq<Input>, written: seq<seq<Byte>>) {
    forall k :: 0 <= k < |inputs| ==> Genuine(inputs[k], written)
  }

  /** The inputs the process was given under one lease, in order. */
  function Under(given: seq<Given>, n: nat): seq<Input> {
    if given == [] then [] else (if given[0].lease == n then [given[0].input] else []) + Under(given[1..], n)
  }

  /** The first `count` inputs written, as they are numbered. */
  function Numbered(written: seq<seq<Byte>>, count: nat): seq<Input>
    requires count <= |written|
  {
    seq(count, k requires 0 <= k < count => Input(k + 1, written[k]))
  }

  /** A reply speaks of the lease of its attachment, and of no input that lease has not got. */
  predicate ReplyKnown(s: System, link: Link, reply: Reply) {
    && link.lease.Some?
    && match reply
       case Welcomed(n, received) => n == link.lease.value && received <= LeaseAt(s, n).sequence
       case InputAck(sequence) => sequence <= LeaseAt(s, link.lease.value).sequence
  }

  predicate LinkKept(s: System, link: Link) {
    && AllGenuine(link.up, s.written)
    && (forall k :: 0 <= k < |link.down| ==> ReplyKnown(s, link, link.down[k]))
    && (link.lease.Some? ==> link.lease.value < |s.leases|)
    && (link.requested.Some? ==> link.requested.value < |s.leases|)
    && (link.requested.Some? ==> link.lease.None? || link.lease == link.requested)
  }

  /** The pending inputs are the last ones written, in order. */
  predicate Latest(pending: seq<Input>, count: nat) {
    |pending| <= count && forall k :: 0 <= k < |pending| ==> pending[k].sequence == count - |pending| + 1 + k
  }

  /** What the client's lease has let through; nothing while it knows of none. */
  function Standing(s: System): nat {
    match s.writer.lease case None => 0 case Some(n) => LeaseAt(s, n).sequence
  }

  predicate LeasesKept(s: System) {
    && (forall n :: 0 <= n < |s.leases| ==> s.leases[n].sequence <= |s.written|)
    && (forall n :: 0 <= n < |s.leases| ==> Under(s.delivered, n) == Numbered(s.written, s.leases[n].sequence))
    && (forall k :: 0 <= k < |s.delivered| ==> s.delivered[k].lease < |s.leases|)
  }

  predicate WriterKept(s: System) {
    && s.writer.inputSequence == |s.written|
    && AllGenuine(s.writer.pending, s.written)
    && AllGenuine(s.writer.up, s.written)
    && Latest(s.writer.pending, |s.written|)
    && |s.written| - |s.writer.pending| <= Standing(s)
    && (s.writer.lease.Some? ==> s.writer.lease.value < |s.leases|)
    && (s.writer.ready ==> s.writer.lease.Some?)
  }

  /** A client that knows its lease is on an attachment that asked for it or was given it. */
  predicate LeaseKnown(writer: Writer, link: Link) {
    && (writer.lease.Some? ==> writer.lease == link.requested || writer.lease == link.lease)
    && (writer.lease.None? ==> link.requested.None?)
  }

  predicate LinksKept(s: System) {
    && s.links != [] && LeaseKnown(s.writer, s.links[|s.links| - 1])
    && (forall i :: 0 <= i < |s.links| ==> LinkKept(s, s.links[i]))
  }

  predicate Kept(s: System) { LeasesKept(s) && WriterKept(s) && LinksKept(s) }

  lemma {:induction false} LatestTail(pending: seq<Input>, count: nat)
    requires Latest(pending, count) && pending != []
    ensures Latest(pending[1..], count) && pending[0].sequence == count - |pending| + 1 && |pending| <= count
  {
  }

  /** How many of the latest `length` of `count` inputs are numbered at most `sequence`. */
  function Received(length: nat, count: nat, sequence: nat): (n: nat)
    requires length <= count
    ensures n <= length
  {
    if sequence + length <= count then 0 else if count <= sequence then length else sequence + length - count
  }

  lemma {:induction false} AboveOfLatest(pending: seq<Input>, count: nat, sequence: nat)
    requires Latest(pending, count)
    ensures |pending| <= count && Above(pending, sequence) == pending[Received(|pending|, count, sequence)..]
    decreases |pending|
  {
    hide Latest;
    if pending != [] {
      LatestTail(pending, count);
      AboveOfLatest(pending[1..], count, sequence);
      var n := Received(|pending| - 1, count, sequence);
      if pending[0].sequence > sequence {
        assert n == 0 && pending == [pending[0]] + pending[1..];
      } else {
        assert pending[1..][n..] == pending[n + 1..];
      }
    }
  }

  lemma {:induction false} PruneKeeps(pending: seq<Input>, written: seq<seq<Byte>>, standing: nat, sequence: nat)
    requires Latest(pending, |written|) && AllGenuine(pending, written)
    requires |written| - |pending| <= standing <= |written| && sequence <= standing
    ensures var rest := Above(pending, sequence);
            Latest(rest, |written|) && AllGenuine(rest, written) && |written| - |rest| <= standing
  {
    AboveOfLatest(pending, |written|, sequence);
  }

  lemma {:induction false} GenuineLater(inputs: seq<Input>, written: seq<seq<Byte>>, more: seq<Byte>)
    requires AllGenuine(inputs, written)
    ensures AllGenuine(inputs, written + [more])
  {
  }

  lemma {:induction false} UnderSnoc(given: seq<Given>, last: Given, n: nat)
    ensures Under(given + [last], n) == Under(given, n) + if last.lease == n then [last.input] else []
  {
    if given == [] {
      assert [] + [last] == [last] && [last][1..] == [];
    } else {
      UnderSnoc(given[1..], last, n);
      assert (given + [last])[0] == given[0] && (given + [last])[1..] == given[1..] + [last];
      Associative(if given[0].lease == n then [given[0].input] else [], Under(given[1..], n),
                  if last.lease == n then [last.input] else []);
    }
  }

  lemma {:induction false} UnderNone(given: seq<Given>, n: nat)
    requires forall k :: 0 <= k < |given| ==> given[k].lease != n
    ensures Under(given, n) == []
  {
    if given != [] { UnderNone(given[1..], n); }
  }

  lemma {:induction false} NumberedLater(written: seq<seq<Byte>>, more: seq<Byte>, count: nat)
    requires count <= |written|
    ensures Numbered(written + [more], count) == Numbered(written, count)
  {
  }

  lemma {:induction false} NumberedNext(written: seq<seq<Byte>>, count: nat)
    requires count < |written|
    ensures Numbered(written, count + 1) == Numbered(written, count) + [Input(count + 1, written[count])]
  {
  }

  lemma {:induction false} WriteKeeps(s: System, data: seq<Byte>)
    requires Kept(s)
    ensures Kept(Step(s, Write(data)))
  {
    hide Under;
    hide Numbered;
    var t := Step(s, Write(data));
    if t != s {
      assert t.written == s.written + [data];
      GenuineLater(s.writer.pending, s.written, data);
      GenuineLater(s.writer.up, s.written, data);
      forall i | 0 <= i < |s.links| ensures LinkKept(t, t.links[i]) {
        assert LinkKept(s, s.links[i]);
        GenuineLater(s.links[i].up, s.written, data);
      }
      forall n | 0 <= n < |s.leases|
        ensures Numbered(t.written, s.leases[n].sequence) == Numbered(s.written, s.leases[n].sequence)
      {
        NumberedLater(s.written, data, s.leases[n].sequence);
      }
    }
  }

  /** Nothing about inputs has changed. */
  predicate SameInputs(s: System, t: System) {
    && t.written == s.written && t.delivered == s.delivered && t.writer == s.writer
    && |t.leases| == |s.leases|
    && (forall n :: 0 <= n < |s.leases| ==> t.leases[n].sequence == s.leases[n].sequence)
  }

  lemma {:induction false} SameKeeps(s: System, t: System)
    requires Kept(s) && SameInputs(s, t)
    ensures LeasesKept(t) && WriterKept(t)
    ensures forall link :: LinkKept(s, link) ==> LinkKept(t, link)
  {
    hide Under;
    hide Numbered;
  }

  lemma {:induction false} SameLedger(s: System, t: System)
    requires LeasesKept(s) && t.written == s.written && t.delivered == s.delivered && t.leases == s.leases
    ensures LeasesKept(t)
  {
  }

  lemma {:induction false} LeaseBound(s: System, n: nat)
    requires LeasesKept(s)
    ensures LeaseAt(s, n).sequence <= |s.written|
  {
  }

  /** One link has changed. */
  lemma {:induction false} LinkKeeps(s: System, t: System, i: nat)
    requires Kept(s) && SameInputs(s, t) && i < |s.links| == |t.links| && t.links == s.links[i := t.links[i]]
    requires LinkKept(t, t.links[i]) && t.links[i].requested == s.links[i].requested
    requires s.links[i].lease.Some? ==> t.links[i].lease == s.links[i].lease
    ensures Kept(t)
  {
    hide LinkKept;
    SameKeeps(s, t);
    hide LeasesKept;
    hide WriterKept;
  }

  lemma {:induction false} RepliedKeeps(s: System, i: nat, reply: Reply, lost: bool)
    requires Kept(s) && i < |s.links| && ReplyKnown(s, s.links[i], reply)
    ensures Kept(Replied(s, i, reply, lost))
  {
    hide LeasesKept;
    hide WriterKept;
    var t := Replied(s, i, reply, lost);
    if t != s {
      assert LinkKept(s, s.links[i]);
      LinkKeeps(s, t, i);
    }
  }

  lemma {:induction false} ReleasedKeeps(s: System, i: nat)
    requires Kept(s) && i < |s.links|
    ensures Kept(Released(s, i))
  {
    hide LeasesKept;
    hide WriterKept;
    assert LinkKept(s, s.links[i]);
    LinkKeeps(s, Released(s, i), i);
  }

  lemma {:induction false} RefusedKeeps(s: System, i: nat)
    requires Kept(s) && i < |s.links|
    ensures Kept(Refused(s, i))
  {
    hide LeasesKept;
    hide WriterKept;
    hide Released;
    var t := s.(links := s.links[i := s.links[i].(failed := true)]);
    assert LinkKept(s, s.links[i]);
    LinkKeeps(s, t, i);
    ReleasedKeeps(t, i);
  }

  lemma {:induction false} EvictKeeps(s: System, n: nat)
    requires Kept(s)
    ensures Kept(Step(s, Evict(n)))
  {
    hide LinkKept;
    var t := Step(s, Evict(n));
    SameKeeps(s, t);
    hide LeasesKept;
    hide WriterKept;
  }

  lemma {:induction false} TakenKeeps(s: System, i: nat)
    requires Kept(s) && i < |s.links| && Inputs(s, i) != []
    ensures Kept(Taken(s, i)) && Genuine(Inputs(s, i)[0], s.written)
  {
    hide LeasesKept;
    var t := Taken(s, i);
    SameLedger(s, t);
    assert LinkKept(s, s.links[i]) && AllGenuine(Inputs(s, i), s.written);
    forall k | 0 <= k < |t.links| ensures LinkKept(t, t.links[k]) {
      assert LinkKept(s, s.links[k]);
    }
  }

  /** The lease `n` gets the next input. */
  lemma {:induction false} AdvancedKeeps(s: System, n: nat, input: Input)
    requires Kept(s) && n < |s.leases| && Genuine(input, s.written) && input.sequence == s.leases[n].sequence + 1
    ensures Kept(Advanced(s, n, input))
  {
    hide Under;
    hide Numbered;
    var t := Advanced(s, n, input);
    forall m | 0 <= m < |t.leases| ensures Under(t.delivered, m) == Numbered(t.written, t.leases[m].sequence) {
      UnderSnoc(s.delivered, Given(n, input), m);
      NumberedNext(s.written, s.leases[n].sequence);
    }
    hide LeasesKept;
    forall k | 0 <= k < |t.links| ensures LinkKept(t, t.links[k]) {
      assert LinkKept(s, s.links[k]);
    }
  }

  lemma {:induction false} MintedKeeps(s: System)
    requires Kept(s)
    ensures Kept(Minted(s))
  {
    hide Under;
    UnderNone(s.delivered, |s.leases|);
    assert Numbered(s.written, 0) == [];
    hide Numbered;
    var t := Minted(s);
    assert LeasesKept(t);
    hide LeasesKept;
    forall k | 0 <= k < |t.links| ensures LinkKept(t, t.links[k]) {
      assert LinkKept(s, s.links[k]);
    }
  }

  lemma {:induction false} ClaimedKeeps(s: System, i: nat, n: nat)
    requires Kept(s) && i < |s.links| && n < |s.leases| && s.links[i].lease.None?
    requires s.links[i].requested.Some? ==> s.links[i].requested == Some(n)
    ensures Kept(Claimed(s, i, n))
    ensures ReplyKnown(Claimed(s, i, n), Claimed(s, i, n).links[i], Welcomed(n, s.leases[n].sequence))
  {
    hide LeasesKept;
    hide WriterKept;
    assert LinkKept(s, s.links[i]);
    assert s.links[i].down != [] ==> ReplyKnown(s, s.links[i], s.links[i].down[0]);
    LinkKeeps(s, Claimed(s, i, n), i);
  }

  lemma {:induction false} HelloKeeps(s: System, i: nat)
    requires Kept(s) && i < |s.links| && s.links[i].lease.None?
    ensures Kept(Hello(s, i))
  {
    hide LeasesKept;
    hide WriterKept;
    assert LinkKept(s, s.links[i]);
    match s.links[i].requested
    case None =>
      MintedKeeps(s);
      assert Minted(s).leases[|s.leases|].sequence == 0;
      ClaimedKeeps(Minted(s), i, |s.leases|);
      RepliedKeeps(Claimed(Minted(s), i, |s.leases|), i, Welcomed(|s.leases|, 0), false);
    case Some(n) =>
      if Unavailable(s, i, n) {
        RefusedKeeps(s, i);
      } else {
        ClaimedKeeps(s, i, n);
        RepliedKeeps(Claimed(s, i, n), i, Welcomed(n, LeaseAt(s, n).sequence), false);
      }
  }

  lemma {:induction false} ReceiveKeeps(s: System, i: nat, lost: bool)
    requires Kept(s) && i < |s.links| && s.links[i].lease.Some? && Inputs(s, i) != []
    ensures Kept(Receive(s, i, lost))
  {
    hide LeasesKept;
    hide WriterKept;
    hide Replied;
    hide Refused;
    var n, input := s.links[i].lease.value, Inputs(s, i)[0];
    var t := Taken(s, i);
    TakenKeeps(s, i);
    assert LinkKept(s, s.links[i]);
    if LeaseAt(s, n).evicted {
      RefusedKeeps(t, i);
    } else {
      match Judge(LeaseAt(s, n).sequence, input.sequence)
      case Duplicate => RepliedKeeps(t, i, InputAck(input.sequence), lost);
      case Gap => RefusedKeeps(t, i);
      case Delivered =>
        AdvancedKeeps(t, n, input);
        RepliedKeeps(Advanced(t, n, input), i, InputAck(input.sequence), lost);
    }
  }

  /** The client has heard a reply on its own channel. */
  lemma {:induction false} HeardWriter(s: System, cut: bool)
    requires Kept(s) && Hears(s)
    ensures WriterKept(Heard(s, cut)) && LeaseKnown(Heard(s, cut).writer, s.links[|s.links| - 1])
  {
    hide LeasesKept;
    hide Above;
    var link := s.links[|s.links| - 1];
    var reply := link.down[0];
    assert LinkKept(s, link) && ReplyKnown(s, link, reply);
    var known := LeaseAt(s, link.lease.value).sequence;
    LeaseBound(s, link.lease.value);
    match reply
    case Welcomed(n, received) =>
      if !s.writer.ready && !cut { WelcomeWriter(s, n, received); }
    case InputAck(sequence) =>
      if s.writer.ready { PruneKeeps(s.writer.pending, s.written, known, sequence); }
  }

  lemma {:induction false} WelcomeWriter(s: System, n: nat, received: nat)
    requires WriterKept(s) && n < |s.leases| && received <= s.leases[n].sequence <= |s.written|
    requires s.writer.lease.Some? ==> s.writer.lease == Some(n)
    requires !s.writer.ready
    ensures WriterKept(s.(writer := s.writer.OnWelcome(n, received)))
  {
    hide Above;
    PruneKeeps(s.writer.pending, s.written, s.leases[n].sequence, received);
  }

  lemma {:induction false} HeardKeeps(s: System, cut: bool)
    requires Kept(s) && Hears(s)
    ensures Kept(Heard(s, cut))
  {
    var t := Heard(s, cut);
    HeardWriter(s, cut);
    assert LeasesKept(t);
    hide LeasesKept;
    hide WriterKept;
    forall k | 0 <= k < |t.links| ensures LinkKept(t, t.links[k]) {
      assert LinkKept(s, s.links[k]);
    }
  }

  lemma {:induction false} ReconnectKeeps(s: System)
    requires Kept(s)
    ensures Kept(Step(s, Reconnect))
  {
    hide LeasesKept;
    var t := Step(s, Reconnect);
    SameLedger(s, t);
    forall k | 0 <= k < |t.links| ensures LinkKept(t, t.links[k]) {
      if k < |s.links| { assert LinkKept(s, s.links[k]); }
    }
  }

  lemma {:induction false} StepKeeps(s: System, a: Action)
    requires Kept(s)
    ensures Kept(Step(s, a))
  {
    match a
    case Write(data) => WriteKeeps(s, data);
    case ClientReceive => if Hears(s) { HeardKeeps(s, false); }
    case ClientCut => if Hears(s) { HeardKeeps(s, true); }
    case ClientClose => CloseKeeps(s);
    case ServerHello(i) => if i < |s.links| && s.links[i].lease.None? { HelloKeeps(s, i); }
    case ServerInput(i, lost) =>
      if i < |s.links| && s.links[i].lease.Some? && Inputs(s, i) != [] { ReceiveKeeps(s, i, lost); }
    case Reconnect => ReconnectKeeps(s);
    case ServerClose(i) => if i < |s.links| { ReleasedKeeps(s, i); }
    case Evict(n) => EvictKeeps(s, n);
  }

  lemma {:induction false} CloseKeeps(s: System)
    requires Kept(s)
    ensures Kept(Step(s, ClientClose))
  {
    hide LeasesKept;
    var t := Step(s, ClientClose);
    SameLedger(s, t);
    forall k | 0 <= k < |t.links| ensures LinkKept(t, t.links[k]) {
      assert LinkKept(s, s.links[k]);
    }
  }

  lemma {:induction false} StartKept()
    ensures Kept(START)
  {
  }

  lemma {:induction false} RunKeeps(s: System, actions: seq<Action>)
    requires Kept(s)
    ensures Kept(Run(s, actions))
    decreases |actions|
  {
    hide Step;
    hide Kept;
    if actions != [] {
      StepKeeps(s, actions[0]);
      RunKeeps(Step(s, actions[0]), actions[1..]);
    }
  }

  /** The client can still send the n-th input written. */
  predicate Held(s: System, n: nat)
    requires 1 <= n <= |s.written|
  {
    Input(n, s.written[n - 1]) in s.writer.pending
  }

  lemma {:induction false} RestIsHeld(s: System, n: nat)
    requires WriterKept(s) && Standing(s) < n <= |s.written|
    ensures Held(s, n)
  {
    var k := n - 1 - (|s.written| - |s.writer.pending|);
    assert Genuine(s.writer.pending[k], s.written);
    assert s.writer.pending[k] == Input(n, s.written[n - 1]);
  }

  /** Over any number of reconnections, lost welcomes and replies, late packets of abandoned attachments and
      evictions of leases: under each lease the process has been given exactly the first inputs written, each
      once, in order and with its data, and the client still holds every input that the lease it knows has not
      let through (all of them while it knows of none). */
  lemma {:induction false} DeliveredOnceInOrder(actions: seq<Action>)
    ensures var s := Run(START, actions);
            && (forall n :: 0 <= n < |s.leases| ==> s.leases[n].sequence <= |s.written|)
            && (forall n :: 0 <= n < |s.leases| ==> Under(s.delivered, n) == Numbered(s.written, s.leases[n].sequence))
            && (forall k :: 0 <= k < |s.delivered| ==> s.delivered[k].lease < |s.leases|)
            && (s.writer.lease.Some? ==> s.writer.lease.value < |s.leases|)
            && (forall n :: Standing(s) < n <= |s.written| ==> Held(s, n))
  {
    hide Run;
    hide Numbered;
    hide Under;
    StartKept();
    RunKeeps(START, actions);
    var s := Run(START, actions);
    forall n | Standing(s) < n <= |s.written| ensures Held(s, n) {
      RestIsHeld(s, n);
    }
  }

  /** Once the server has closed the attachment that holds a lease, a client that asks for it on another open
      attachment is given it and told how far it stands. */
  lemma {:induction false} LeaseIsResumed(actions: seq<Action>, i: nat, j: nat)
    ensures var s := Run(START, actions);
            i < |s.links| && j < |s.links| && i != j && s.links[i].lease.Some? && s.links[j].requested == s.links[i].lease
            && s.links[j].open && s.links[j].lease.None? && !s.links[j].failed ==>
              var n := s.links[i].lease.value;
              var t := Step(Step(s, ServerClose(i)), ServerHello(j));
              LeaseAt(s, n).active == Some(i) && !LeaseAt(s, n).evicted ==>
                && t.links[j].lease == Some(n) && LeaseAt(t, n) == LeaseAt(s, n).(active := Some(j))
                && t.links[j].down == s.links[j].down + [Welcomed(n, LeaseAt(s, n).sequence)]
  {
  }

  // ----- What the client forgets -----

  /** A client holds on to nothing that was acknowledged, and believes no acknowledgement of what it never wrote. */
  predicate Pruned(writer: Writer) {
    writer.lastAck <= writer.inputSequence
    && (writer.ready ==> forall k :: 0 <= k < |writer.pending| ==> writer.lastAck < writer.pending[k].sequence)
  }

  lemma {:induction false} AboveIsAbove(inputs: seq<Input>, sequence: nat)
    ensures forall k :: 0 <= k < |Above(inputs, sequence)| ==> sequence < Above(inputs, sequence)[k].sequence
  {
    if inputs != [] { AboveIsAbove(inputs[1..], sequence); }
  }

  lemma {:induction false} HeardPrunes(s: System, cut: bool)
    requires Kept(s) && Pruned(s.writer) && Hears(s)
    ensures Pruned(Heard(s, cut).writer)
  {
    hide Above;
    var link := s.links[|s.links| - 1];
    assert LinkKept(s, link) && ReplyKnown(s, link, link.down[0]);
    LeaseBound(s, link.lease.value);
    match link.down[0]
    case Welcomed(n, received) => AboveIsAbove(s.writer.pending, received);
    case InputAck(sequence) => AboveIsAbove(s.writer.pending, sequence);
  }

  /** The server's steps leave the client's own state alone, but for what is on its way. */
  lemma {:induction false} ServerStepWriter(s: System, a: Action)
    requires a.ServerHello? || a.ServerInput? || a.ServerClose? || a.Evict?
    ensures Step(s, a).writer == s.writer.(up := Step(s, a).writer.up)
  {
  }

  lemma {:induction false} StepPrunes(s: System, a: Action)
    requires Kept(s) && Pruned(s.writer)
    ensures Pruned(Step(s, a).writer)
  {
    hide LeasesKept;
    hide LinksKept;
    hide Heard;
    match a
    case ClientReceive => if Hears(s) { HeardPrunes(s, false); }
    case ClientCut => if Hears(s) { HeardPrunes(s, true); }
    case Write(_) =>
    case ClientClose =>
    case Reconnect =>
    case _ => ServerStepWriter(s, a);
  }

  lemma {:induction false} RunPrunes(s: System, actions: seq<Action>)
    requires Kept(s) && Pruned(s.writer)
    ensures Pruned(Run(s, actions).writer)
    decreases |actions|
  {
    hide Step;
    hide Kept;
    hide Pruned;
    if actions != [] {
      StepKeeps(s, actions[0]);
      StepPrunes(s, actions[0]);
      RunPrunes(Step(s, actions[0]), actions[1..]);
    }
  }

  /** In every run a welcomed client has forgotten every input that was acknowledged, and takes another input of
      at most 64 KB exactly while it holds fewer than 1024: the last ones it wrote. */
  lemma {:induction false} ForgetsAcknowledged(actions: seq<Action>, data: seq<Byte>)
    ensures var s := Run(START, actions);
            && (s.writer.ready ==> s.writer.lastAck + |s.writer.pending| <= |s.written|)
            && (forall k :: 0 <= k < |s.writer.pending| ==>
                  var n := |s.written| - |s.writer.pending| + 1 + k;
                  1 <= n <= |s.written| && s.writer.pending[k] == Input(n, s.written[n - 1]))
            && (Step(s, Write(data)).written == s.written + [data] <==> |data| <= 65536 && |s.writer.pending| < 1024)
  {
    StartKept();
    RunKeeps(START, actions);
    RunPrunes(START, actions);
    hide Run;
    var s := Run(START, actions);
    assert WriterKept(s) && s.links != [];
    if s.writer.ready && s.writer.pending != [] {
      assert s.writer.lastAck < s.writer.pending[0].sequence == |s.written| - |s.writer.pending| + 1;
    }
    forall k | 0 <= k < |s.writer.pending|
      ensures var n := |s.written| - |s.writer.pending| + 1 + k;
              1 <= n <= |s.written| && s.writer.pending[k] == Input(n, s.written[n - 1])
    {
      assert Genuine(s.writer.pending[k], s.written);
    }
    assert s.written + [data] != s.written;
  }
}
