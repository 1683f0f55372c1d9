/**
 * When one attachment carries input without failing. A client may write before it is welcomed, and those
 * inputs travel both at once and again with the resend that follows the welcome. A client that knows no lease
 * gets a new one, to which everything it has written is undelivered.
 */
module InputSession {
  import opened Basics
  import opened InputLease

  /** A client has just reconnected, and its lease, if it knows one, is still there and not held by another
      attachment. */
  predicate Fresh(s: System) {
    && Kept(s) && s.writer == s.writer.Reconnected()
    && s.links[|s.links| - 1] == NewLink(s.writer.lease)
    && (s.writer.lease.Some? ==> !Unavailable(s, |s.links| - 1, s.writer.lease.value))
  }

  /** What happens on the current attachment while it lasts and no reply is lost. */
  predicate OfSession(s: System, a: Action) {
    || a.Write? || a.ClientReceive?
    || (s.links != [] && (a == ServerHello(|s.links| - 1) || a == ServerInput(|s.links| - 1, false)))
  }

  predicate AllOfSession(s: System, actions: seq<Action>)
    decreases |actions|
  {
    actions != [] ==> OfSession(s, actions[0]) && AllOfSession(Step(s, actions[0]), actions[1..])
  }

  /** Inputs accepted from the application before the welcome arrived. */
  function EarlyWrites(s: System, actions: seq<Action>): nat
    decreases |actions|
  {
    if actions == [] then 0
    else (if IsEarly(s, actions[0]) then 1 else 0) + EarlyWrites(Step(s, actions[0]), actions[1..])
  }

  predicate IsEarly(s: System, a: Action) {
    a.Write? && !s.writer.ready && Step(s, a).writer != s.writer
  }

  /** The server failed the attachment or the client closed it over an acknowledgement. */
  predicate Broken(s: System)
    requires s.links != []
  {
    s.links[|s.links| - 1].failed || !s.writer.open
  }

  /** The hello was handled and everything sent either way was received. */
  predicate Settled(s: System)
    requires s.links != []
  {
    s.links[|s.links| - 1].lease.Some? && s.writer.up == [] && s.links[|s.links| - 1].down == []
  }

  /** At most one early write, and none while earlier inputs were still undelivered. */
  predicate Harmless(early: nat, undelivered: nat) {
    early == 0 || (early == 1 && undelivered == 0)
  }

  /** The i-th input sent: `e` early ones after `m`, then everything after `k`. */
  function SentAt(k: nat, m: nat, e: nat, i: nat): nat {
    if i < e then m + 1 + i else k + 1 + (i - e)
  }

  function ReplyAt(n: nat, k: nat, m: nat, e: nat, j: nat): Reply {
    if j == 0 then Welcomed(n, k) else InputAck(SentAt(k, m, e, j - 1))
  }

  /** The attachment was given no lease yet but will be, or holds one that stands where `p` inputs leave it. */
  predicate Leased(s: System, k: nat, e: nat, p: nat)
    requires s.links != []
  {
    var last := |s.links| - 1;
    match s.links[last].lease
    case None =>
      && s.links[last].requested == s.writer.lease && Standing(s) == k && p == 0
      && (s.writer.lease.Some? ==> s.writer.lease.value < |s.leases| && !Unavailable(s, last, s.writer.lease.value))
    case Some(n) =>
      n < |s.leases| && s.leases[n] == Lease(k + if p <= e then p else Max(e, p - e), Some(last), false)
  }

  /** What is on its way to the server is in order after the `p` inputs it took. */
  predicate Sending(writer: Writer, k: nat, m: nat, e: nat, p: nat) {
    && p + |writer.up| == e + (if writer.ready then writer.inputSequence - k else 0)
    && (forall i :: 0 <= i < |writer.up| ==> writer.up[i].sequence == SentAt(k, m, e, p + i))
  }

  /** What is on its way to the client is in order after the `c` replies it took. */
  predicate Answering(link: Link, k: nat, m: nat, e: nat, p: nat, c: nat) {
    match link.lease
    case None => p == 0 && c == 0 && link.down == []
    case Some(n) =>
      c + |link.down| == 1 + p
      && forall j :: 0 <= j < |link.down| ==> link.down[j] == ReplyAt(n, k, m, e, c + j)
  }

  /** The current attachment after `p` inputs were taken by the server and `c` replies by the client. */
  predicate Going(s: System, k: nat, m: nat, e: nat, p: nat, c: nat)
    requires s.links != []
  {
    var link := s.links[|s.links| - 1];
    && k <= m && m + e <= s.writer.inputSequence
    && link.open && Leased(s, k, e, p) && Sending(s.writer, k, m, e, p) && Answering(link, k, m, e, p, c)
    && (k < m && e > 0 ==> p == 0)
    && (s.writer.ready <==> c >= 1)
    && (!s.writer.ready ==> s.writer.inputSequence == m + e && s.writer.inputSequence - |s.writer.pending| <= k)
    && s.writer.lastAck == (if c == 0 then 0 else if c == 1 then k else SentAt(k, m, e, c - 2))
    && (c >= e + 2 ==> e <= 1)
  }

  predicate Trace(s: System, k: nat, m: nat, e: nat, p: nat, c: nat) {
    && Kept(s) && k <= m
    && if Broken(s) then !Harmless(e, m - k) else Going(s, k, m, e, p, c)
  }

  lemma {:induction false} WriteTrace(s: System, data: seq<Byte>, k: nat, m: nat, e: nat, p: nat, c: nat)
    requires Trace(s, k, m, e, p, c) && s.links != [] && !Broken(s)
    ensures var t := Step(s, Write(data));
            !Broken(t) && Going(t, k, m, if IsEarly(s, Write(data)) then e + 1 else e, p, c)
  {
    hide Going;
    hide Kept;
    hide Harmless;
    if s.writer.Write(data) != s.writer {
      if s.writer.ready { LateWrite(s, data, k, m, e, p, c); } else { EarlyWrite(s, data, k, m, e, p, c); }
    }
  }

  lemma {:induction false} LateWrite(s: System, data: seq<Byte>, k: nat, m: nat, e: nat, p: nat, c: nat)
    requires s.links != [] && Going(s, k, m, e, p, c) && !Broken(s) && s.writer.ready
    ensures Going(Step(s, Write(data)), k, m, e, p, c)
  {
    hide Above;
    var t := Step(s, Write(data));
    forall i | 0 <= i < |t.writer.up| ensures t.writer.up[i].sequence == SentAt(k, m, e, p + i) {
      if i < |s.writer.up| { assert t.writer.up[i] == s.writer.up[i]; }
    }
  }

  lemma {:induction false} EarlyWrite(s: System, data: seq<Byte>, k: nat, m: nat, e: nat, p: nat, c: nat)
    requires s.links != [] && Going(s, k, m, e, p, c) && !Broken(s) && !s.writer.ready
    requires s.writer.Write(data) != s.writer
    ensures Going(Step(s, Write(data)), k, m, e + 1, p, c)
  {
    hide Above;
    var t := Step(s, Write(data));
    assert t.links == s.links;
    forall i | 0 <= i < |t.writer.up| ensures t.writer.up[i].sequence == SentAt(k, m, e + 1, p + i) {
      if i < |s.writer.up| { assert t.writer.up[i] == s.writer.up[i]; }
    }
  }

  lemma {:induction false} HelloTrace(s: System, k: nat, m: nat, e: nat, p: nat, c: nat)
    requires Trace(s, k, m, e, p, c) && !Broken(s)
    ensures var t := Step(s, ServerHello(|s.links| - 1));
            !Broken(t) && Going(t, k, m, e, p, c)
  {
  }

  /** What is sent again is everything after `k`, in order. */
  lemma {:induction false} ResentAfter(pending: seq<Input>, count: nat, k: nat)
    requires Latest(pending, count) && count - |pending| <= k <= count
    ensures var rest := Above(pending, k);
            |rest| == count - k && forall i :: 0 <= i < |rest| ==> rest[i].sequence == k + 1 + i
  {
    AboveOfLatest(pending, count, k);
  }

  lemma {:induction false} WelcomeTrace(s: System, k: nat, m: nat, e: nat, p: nat, c: nat)
    requires Trace(s, k, m, e, p, c) && !Broken(s) && c == 0 && s.links[|s.links| - 1].down != []
    ensures var t := Step(s, ClientReceive);
            !Broken(t) && Going(t, k, m, e, p, 1)
  {
    assert s.links[|s.links| - 1].down[0] == ReplyAt(s.links[|s.links| - 1].lease.value, k, m, e, 0);
    var rest := Above(s.writer.pending, k);
    ResentAfter(s.writer.pending, |s.written|, k);
    hide Above;
    hide Latest;
    var t := Step(s, ClientReceive);
    assert t.writer.up == s.writer.up + rest && t.writer.pending == rest;
    forall i | 0 <= i < |t.writer.up| ensures t.writer.up[i].sequence == SentAt(k, m, e, p + i) {
      if i < |s.writer.up| { assert t.writer.up[i] == s.writer.up[i]; }
    }
  }

  lemma {:induction false} AckTrace(s: System, k: nat, m: nat, e: nat, p: nat, c: nat)
    requires Trace(s, k, m, e, p, c) && !Broken(s) && c >= 1 && s.links[|s.links| - 1].down != []
    ensures var t := Step(s, ClientReceive);
            if Broken(t) then !Harmless(e, m - k) else Going(t, k, m, e, p, c + 1)
  {
    assert s.links[|s.links| - 1].down[0] == ReplyAt(s.links[|s.links| - 1].lease.value, k, m, e, c);
  }

  lemma {:induction false} InputTrace(s: System, k: nat, m: nat, e: nat, p: nat, c: nat)
    requires Trace(s, k, m, e, p, c) && !Broken(s) && s.writer.up != [] && s.links[|s.links| - 1].lease.Some?
    ensures var t := Step(s, ServerInput(|s.links| - 1, false));
            if Broken(t) then !Harmless(e, m - k) else Going(t, k, m, e, p + 1, c)
  {
    assert s.writer.up[0].sequence == SentAt(k, m, e, p);
    if Judge(LeaseAt(s, s.links[|s.links| - 1].lease.value).sequence, s.writer.up[0].sequence) != Gap {
      AcceptedTrace(s, k, m, e, p, c);
    }
  }

  lemma {:induction false} AcceptedTrace(s: System, k: nat, m: nat, e: nat, p: nat, c: nat)
    requires s.links != [] && Going(s, k, m, e, p, c) && !Broken(s)
    requires s.writer.up != [] && s.links[|s.links| - 1].lease.Some?
    requires Judge(LeaseAt(s, s.links[|s.links| - 1].lease.value).sequence, s.writer.up[0].sequence) != Gap
    ensures var t := Step(s, ServerInput(|s.links| - 1, false));
            !Broken(t) && Going(t, k, m, e, p + 1, c)
  {
    hide Released;
    var last := |s.links| - 1;
    var t := Step(s, ServerInput(last, false));
    var n := s.writer.up[0].sequence;
    assert n == SentAt(k, m, e, p);
    assert t.writer == s.writer.(up := s.writer.up[1..]);
    assert t.links[last] == s.links[last].(down := s.links[last].down + [InputAck(n)]);
    var was := s.leases[s.links[last].lease.value];
    assert t.leases[s.links[last].lease.value] == was.(sequence := Max(was.sequence, n));
    forall i | 0 <= i < |t.writer.up| ensures t.writer.up[i].sequence == SentAt(k, m, e, p + 1 + i) {
      assert t.writer.up[i] == s.writer.up[i + 1];
    }
    forall j | 0 <= j < |t.links[last].down|
      ensures t.links[last].down[j] == ReplyAt(s.links[last].lease.value, k, m, e, c + j)
    {
      if j < |s.links[last].down| { assert t.links[last].down[j] == s.links[last].down[j]; }
    }
  }

  /** Nothing happens when a channel is empty or the hello has not been handled. */
  lemma {:induction false} Idle(s: System, a: Action)
    requires s.links != [] && OfSession(s, a)
    requires a.ClientReceive? ==> s.links[|s.links| - 1].down == []
    requires a.ServerInput? ==> s.links[|s.links| - 1].lease.None? || s.writer.up == []
    requires a.ClientReceive? || a.ServerInput?
    ensures Step(s, a) == s
  {
  }

  lemma {:induction false} OnlyWritesAreEarly(s: System, a: Action)
    requires !a.Write?
    ensures !IsEarly(s, a)
  {
  }

  /** One step of an unbroken attachment, with the counts it leaves. */
  lemma {:induction false} UnbrokenStep(s: System, a: Action, k: nat, m: nat, e: nat, p: nat, c: nat)
    returns (p': nat, c': nat)
    requires Trace(s, k, m, e, p, c) && s.links != [] && !Broken(s) && OfSession(s, a)
    ensures var t := Step(s, a);
            && t.links != []
            && (if Broken(t) then !IsEarly(s, a) && !Harmless(e, m - k)
                else Going(t, k, m, if IsEarly(s, a) then e + 1 else e, p', c'))
  {
    hide Kept;
    hide Going;
    hide Step;
    hide IsEarly;
    hide Harmless;
    p', c' := p, c;
    var link := s.links[|s.links| - 1];
    LinksStay(s, a);
    if !a.Write? { OnlyWritesAreEarly(s, a); }
    match a
    case Write(data) => WriteTrace(s, data, k, m, e, p, c);
    case ClientReceive =>
      if link.down == [] {
        Idle(s, a);
      } else {
        c' := c + 1;
        if c == 0 { WelcomeTrace(s, k, m, e, p, c); } else { AckTrace(s, k, m, e, p, c); }
      }
    case ServerHello(_) => HelloTrace(s, k, m, e, p, c);
    case ServerInput(_, _) =>
      if link.lease.Some? && s.writer.up != [] {
        p' := p + 1;
        InputTrace(s, k, m, e, p, c);
      } else {
        Idle(s, a);
      }
  }

  lemma {:induction false} LinksStay(s: System, a: Action)
    requires s.links != []
    ensures Step(s, a).links != []
  {
  }

  lemma {:induction false} StepTrace(s: System, a: Action, k: nat, m: nat, e: nat, p: nat, c: nat)
    returns (p': nat, c': nat)
    requires Trace(s, k, m, e, p, c) && OfSession(s, a)
    ensures Trace(Step(s, a), k, m, if IsEarly(s, a) then e + 1 else e, p', c')
  {
    hide Going;
    hide Step;
    hide IsEarly;
    StepKeeps(s, a);
    p', c' := p, c;
    if Broken(s) {
      BrokenStays(s, a);
    } else {
      p', c' := UnbrokenStep(s, a, k, m, e, p, c);
    }
  }

  lemma {:induction false} BrokenStays(s: System, a: Action)
    requires s.links != [] && Broken(s) && OfSession(s, a)
    ensures Step(s, a).links != [] && Broken(Step(s, a))
  {
  }

  lemma {:induction false} RunTrace(s: System, actions: seq<Action>, k: nat, m: nat, e: nat, p: nat, c: nat)
    returns (p': nat, c': nat)
    requires Trace(s, k, m, e, p, c) && AllOfSession(s, actions)
    ensures Trace(Run(s, actions), k, m, e + EarlyWrites(s, actions), p', c')
    decreases |actions|
  {
    hide Step;
    hide Trace;
    hide IsEarly;
    p', c' := p, c;
    if actions != [] {
      var q, d := StepTrace(s, actions[0], k, m, e, p, c);
      p', c' := RunTrace(Step(s, actions[0]), actions[1..], k, m, if IsEarly(s, actions[0]) then e + 1 else e, q, d);
    }
  }

  /** An attachment that has settled or broken is unbroken exactly when the client wrote nothing before its
      welcome, or wrote one input while the lease it is given had already let through all earlier ones. */
  lemma {:induction false} SessionSurvivesIff(s: System, actions: seq<Action>)
    requires Fresh(s) && AllOfSession(s, actions)
    ensures var t := Run(s, actions);
            t.links != [] && (Settled(t) || Broken(t) ==>
              (!Broken(t) <==> Harmless(EarlyWrites(s, actions), |s.written| - Standing(s))))
  {
    assert Standing(s) <= |s.written|;
    var k, m := Standing(s), |s.written|;
    assert Going(s, k, m, 0, 0, 0);
    var p, c := RunTrace(s, actions, k, m, 0, 0, 0);
  }
}
