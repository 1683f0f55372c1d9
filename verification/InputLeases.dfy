/**
 * The table of input leases: who may claim one, which one makes room for another, and what each has let
 * through (`claimInputLease`, `receiveInput` of RemoteTerminalProtocolServer.ts).
 */
module InputLeases {
  import opened Basics
  import InputLease

  datatype Lease = Lease(
    token: string,
    active: Option<nat>,
    input: bool,
    outputOffset: nat,
    resizeRevision: nat,
    sequence: nat)

  datatype Refusal = Unavailable | AlreadyAttached | TooMany | InputGap | InvalidResize

  /** The place of a token in the table, which keeps leases in the order they were created. */
  function Place(leases: seq<Lease>, token: string): (i: nat)
    ensures i <= |leases| && (i < |leases| ==> leases[i].token == token)
    ensures forall j :: 0 <= j < i ==> leases[j].token != token
  {
    if leases == [] || leases[0].token == token then 0 else 1 + Place(leases[1..], token)
  }

  /** The oldest lease that no attachment holds. */
  function FirstIdle(leases: seq<Lease>): (i: nat)
    ensures i <= |leases| && (i < |leases| ==> leases[i].active == None)
    ensures forall j :: 0 <= j < i ==> leases[j].active.Some?
  {
    if leases == [] || leases[0].active == None then 0 else 1 + FirstIdle(leases[1..])
  }

  /** An attachment that may write gets the lease it asks for back; any other gets a new one, for which an idle
      lease gives way when there are too many. */
  function Claim(leases: seq<Lease>, max: nat, requested: Option<string>, connection: nat, input: bool, token: string)
    : Result<seq<Lease>, Refusal>
  {
    if input && requested.Some? then
      var i := Place(leases, requested.value);
      if i == |leases| then Err(Unavailable)
      else if leases[i].active.Some? && leases[i].active != Some(connection) then Err(AlreadyAttached)
      else Ok(leases[i := leases[i].(active := Some(connection))])
    else
      var fresh_ := Lease(token, Some(connection), input, 0, 0, 0);
      if |leases| < max then Ok(leases + [fresh_])
      else
        var i := FirstIdle(leases);
        if i == |leases| then Err(TooMany) else Claim(leases[..i] + leases[i + 1..], max, None, connection, input, token)
  }

  function Released(leases: seq<Lease>, connection: nat): seq<Lease> {
    seq(|leases|, i requires 0 <= i < |leases| =>
      if leases[i].active == Some(connection) then leases[i].(active := None) else leases[i])
  }

  /** What the lease of a token makes of an input: hand it to the process, ignore it, or refuse it. */
  function Admitted(leases: seq<Lease>, token: string, sequence: nat): Result<bool, Refusal> {
    var i := Place(leases, token);
    if i == |leases| || !leases[i].input then Err(Unavailable)
    else
      match InputLease.Judge(leases[i].sequence, sequence)
      case Duplicate => Ok(false)
      case Gap => Err(InputGap)
      case Delivered => Ok(true)
  }

  /** The process has taken an input; a lease that gave way in the meantime is not in the table any more. */
  function Recorded(leases: seq<Lease>, token: string, sequence: nat): seq<Lease> {
    var i := Place(leases, token);
    if i == |leases| then leases else leases[i := leases[i].(sequence := sequence)]
  }

  function OutputAcknowledged(leases: seq<Lease>, token: string, offset: nat): Result<seq<Lease>, Refusal> {
    var i := Place(leases, token);
    if i == |leases| then Err(Unavailable) else Ok(leases[i := leases[i].(outputOffset := offset)])
  }

  function ResizeAcknowledged(leases: seq<Lease>, token: string, revision: nat, current: nat)
    : Result<seq<Lease>, Refusal>
  {
    var i := Place(leases, token);
    if i == |leases| || revision < leases[i].resizeRevision || revision > current then Err(InvalidResize)
    else Ok(leases[i := leases[i].(resizeRevision := revision)])
  }

  // ----- The table as an object -----

  class LeaseTable {
    const max: nat
    var leases: seq<Lease>

    constructor (max: nat)
      ensures this.max == max && leases == []
    {
      this.max, leases := max, [];
    }

    method Find(token: string) returns (i: nat)
      ensures i == Place(leases, token)
    {
      i := 0;
      while i < |leases| && leases[i].token != token
        invariant 0 <= i <= |leases|
        invariant i + Place(leases[i..], token) == Place(leases, token)
      {
        assert leases[i..][0] == leases[i] && leases[i..][1..] == leases[i + 1..];
        i := i + 1;
      }
    }

    method FindIdle() returns (i: nat)
      ensures i == FirstIdle(leases)
    {
      i := 0;
      while i < |leases| && leases[i].active.Some?
        invariant 0 <= i <= |leases|
        invariant i + FirstIdle(leases[i..]) == FirstIdle(leases)
      {
        assert leases[i..][0] == leases[i] && leases[i..][1..] == leases[i + 1..];
        i := i + 1;
      }
    }

    method ClaimInputLease(requested: Option<string>, connection: nat, input: bool, token: string)
      returns (refusal: Option<Refusal>)
      modifies this
      ensures match Claim(old(leases), max, requested, connection, input, token)
              case Err(e) => refusal == Some(e) && (|old(leases)| <= max ==> leases == old(leases))
              case Ok(next) => refusal == None && leases == next
    {
      if input && requested.Some? {
        var i := Find(requested.value);
        if i == |leases| {
          return Some(Unavailable);
        }
        if leases[i].active.Some? && leases[i].active != Some(connection) {
          return Some(AlreadyAttached);
        }
        leases := leases[i := leases[i].(active := Some(connection))];
        return None;
      }
      refusal := MintInputLease(connection, input, token);
    }

    method MintInputLease(connection: nat, input: bool, token: string) returns (refusal: Option<Refusal>)
      modifies this
      ensures match Claim(old(leases), max, None, connection, input, token)
              case Err(e) => refusal == Some(e) && (|old(leases)| <= max ==> leases == old(leases))
              case Ok(next) => refusal == None && leases == next
    {
      while |leases| >= max
        invariant Claim(leases, max, None, connection, input, token)
               == Claim(old(leases), max, None, connection, input, token)
        invariant |old(leases)| <= max ==> leases == old(leases) || |leases| < max
        decreases |leases|
      {
        var i := FindIdle();
        if i == |leases| {
          return Some(TooMany);
        }
        leases := leases[..i] + leases[i + 1..];
      }
      leases := leases + [Lease(token, Some(connection), input, 0, 0, 0)];
      return None;
    }

    method ReleaseInputLease(connection: nat)
      modifies this
      ensures leases == Released(old(leases), connection)
    {
      for i := 0 to |leases|
        invariant |leases| == |old(leases)|
        invariant forall j :: 0 <= j < i ==> leases[j] == Released(old(leases), connection)[j]
        invariant forall j :: i <= j < |leases| ==> leases[j] == old(leases)[j]
      {
        if leases[i].active == Some(connection) {
          leases := leases[i := leases[i].(active := None)];
        }
      }
    }

    /** What comes before the input is handed over: `hand` says whether it is. */
    method AdmitInput(token: string, sequence: nat) returns (hand: Result<bool, Refusal>)
      ensures hand == Admitted(leases, token, sequence)
    {
      var i := Find(token);
      if i == |leases| || !leases[i].input {
        return Err(Unavailable);
      }
      if sequence <= leases[i].sequence {
        return Ok(false);
      }
      if sequence != leases[i].sequence + 1 {
        return Err(InputGap);
      }
      return Ok(true);
    }

    method AcknowledgeOutput(token: string, offset: nat) returns (refusal: Option<Refusal>)
      modifies this
      ensures match OutputAcknowledged(old(leases), token, offset)
              case Err(e) => refusal == Some(e) && leases == old(leases)
              case Ok(next) => refusal == None && leases == next
    {
      var i := Find(token);
      if i == |leases| {
        return Some(Unavailable);
      }
      leases := leases[i := leases[i].(outputOffset := offset)];
      return None;
    }

    method AcknowledgeResize(token: string, revision: nat, current: nat) returns (refusal: Option<Refusal>)
      modifies this
      ensures match ResizeAcknowledged(old(leases), token, revision, current)
              case Err(e) => refusal == Some(e) && leases == old(leases)
              case Ok(next) => refusal == None && leases == next
    {
      var i := Find(token);
      if i == |leases| || revision < leases[i].resizeRevision || revision > current {
        return Some(InvalidResize);
      }
      leases := leases[i := leases[i].(resizeRevision := revision)];
      return None;
    }

    /** What comes after it. */
    method RecordInput(token: string, sequence: nat)
      modifies this
      ensures leases == Recorded(old(leases), token, sequence)
    {
      var i := Find(token);
      if i < |leases| {
        leases := leases[i := leases[i].(sequence := sequence)];
      }
    }
  }

  // ----- Who gets a lease -----

  predicate Distinct(leases: seq<Lease>) {
    forall i, j :: 0 <= i < j < |leases| ==> leases[i].token != leases[j].token
  }

  predicate Held(leases: seq<Lease>, token: string, connection: nat) {
    exists i :: 0 <= i < |leases| && leases[i].token == token && leases[i].active == Some(connection)
  }

  /** A claim is refused exactly when the lease asked for is gone or held by another attachment, or when a new
      one is needed and as many as allowed are all held. */
  lemma {:induction false} ClaimRefusedIff(leases: seq<Lease>, max: nat, requested: Option<string>, connection: nat,
                                           input: bool, token: string)
    requires Distinct(leases) && |leases| <= max && 1 <= max
    ensures Claim(leases, max, requested, connection, input, token).Err?
        <==> if input && requested.Some?
             then forall i :: 0 <= i < |leases| && leases[i].token == requested.value ==>
                    leases[i].active.Some? && leases[i].active != Some(connection)
             else |leases| == max && forall i :: 0 <= i < |leases| ==> leases[i].active.Some?
  {
    if !(input && requested.Some?) && |leases| == max && FirstIdle(leases) < |leases| {
      var i := FirstIdle(leases);
      assert |leases[..i] + leases[i + 1..]| < max;
    }
  }

  /** The table once there is room for one more. */
  function MadeRoom(leases: seq<Lease>, max: nat): seq<Lease> {
    var i := FirstIdle(leases);
    if |leases| < max || i == |leases| then leases else leases[..i] + leases[i + 1..]
  }

  lemma {:induction false} NewClaimForm(leases: seq<Lease>, max: nat, connection: nat, input: bool, token: string)
    requires |leases| <= max && 1 <= max && Claim(leases, max, None, connection, input, token).Ok?
    ensures Claim(leases, max, None, connection, input, token).value
         == MadeRoom(leases, max) + [Lease(token, Some(connection), input, 0, 0, 0)]
    ensures |MadeRoom(leases, max)| < max
  {
  }

  lemma {:induction false} RequestIsIgnored(leases: seq<Lease>, max: nat, requested: Option<string>, connection: nat,
                                            input: bool, token: string)
    requires !(input && requested.Some?)
    ensures Claim(leases, max, requested, connection, input, token) == Claim(leases, max, None, connection, input, token)
  {
  }

  /** Making room takes away nothing but one idle lease. */
  lemma {:induction false} RoomKeeps(leases: seq<Lease>, max: nat)
    requires Distinct(leases)
    ensures Distinct(MadeRoom(leases, max))
    ensures forall l :: l in MadeRoom(leases, max) ==> l in leases
    ensures forall l :: l in leases && l.active.Some? ==> l in MadeRoom(leases, max)
  {
    var i := FirstIdle(leases);
    if |leases| >= max && i < |leases| {
      var kept := leases[..i] + leases[i + 1..];
      assert forall j :: 0 <= j < |kept| ==> kept[j] == leases[if j < i then j else j + 1];
      forall l | l in leases && l.active.Some? ensures l in kept {
        var j :| 0 <= j < |leases| && leases[j] == l;
        assert kept[if j < i then j else j - 1] == l;
      }
    }
  }

  /** An attachment that holds a lease keeps it whatever others claim. */
  lemma {:induction false} ClaimKeepsHeld(leases: seq<Lease>, max: nat, requested: Option<string>, connection: nat,
                                          input: bool, token: string, l: Lease)
    requires Distinct(leases) && |leases| <= max && 1 <= max && l in leases && l.active.Some?
    requires Claim(leases, max, requested, connection, input, token).Ok?
    ensures l in Claim(leases, max, requested, connection, input, token).value
  {
    var next := Claim(leases, max, requested, connection, input, token).value;
    if input && requested.Some? {
      var j :| 0 <= j < |leases| && leases[j] == l;
      assert next[j] == l;
    } else {
      RequestIsIgnored(leases, max, requested, connection, input, token);
      NewClaimForm(leases, max, connection, input, token);
      RoomKeeps(leases, max);
    }
  }

  /** When an attachment lets go, its leases keep what they let through and another attachment can claim them;
      the leases of others stay as they are. */
  lemma {:induction false} ReleasedIsClaimable(leases: seq<Lease>, max: nat, connection: nat, other: nat, l: Lease,
                                               token: string)
    requires Distinct(leases) && l in leases
    ensures var released := Released(leases, connection);
            && (l.active != Some(connection) ==> l in released)
            && (l.active == Some(connection) ==>
                  && l.(active := None) in released
                  && Claim(released, max, Some(l.token), other, true, token).Ok?
                  && l.(active := Some(other)) in Claim(released, max, Some(l.token), other, true, token).value)
  {
    var released := Released(leases, connection);
    var i :| 0 <= i < |leases| && leases[i] == l;
    assert released[i].token == l.token;
    var j := Place(released, l.token);
    if l.active == Some(connection) {
      assert forall k :: 0 <= k < |leases| ==> released[k].token == leases[k].token;
      assert j == i;
      assert released[i := released[i].(active := Some(other))][i] == l.(active := Some(other));
    }
  }

  // ----- What each lease lets through -----

  /** `given` are the inputs handed to the process with the token they came under, `handing` those of them that
      are not recorded, `used` every token drawn. A hand-over that fails is never recorded. */
  datatype Table = Table(leases: seq<Lease>, handing: seq<(string, nat)>, given: seq<(string, nat)>, used: set<string>)

  datatype Action =
    | Claims(requested: Option<string>, connection: nat, input: bool, token: string)
    | Releases(connection: nat)
    | Takes(token: string, sequence: nat)
    | Records(index: nat)
    | AcksOutput(token: string, offset: nat)
    | AcksResize(token: string, revision: nat, current: nat)

  function Or(r: Result<seq<Lease>, Refusal>, leases: seq<Lease>): seq<Lease> { if r.Ok? then r.value else leases }

  /** A token is drawn at random and never drawn again. */
  function Step(t: Table, max: nat, a: Action): Table {
    match a
    case Claims(requested, connection, input, token) =>
      if token in t.used then t
      else t.(leases := Or(Claim(t.leases, max, requested, connection, input, token), t.leases), used := t.used + {token})
    case Releases(connection) => t.(leases := Released(t.leases, connection))
    case Takes(token, sequence) =>
      if Admitted(t.leases, token, sequence) != Ok(true) then t
      else t.(handing := t.handing + [(token, sequence)], given := t.given + [(token, sequence)])
    case Records(k) =>
      if k >= |t.handing| then t
      else t.(leases := Recorded(t.leases, t.handing[k].0, t.handing[k].1), handing := t.handing[..k] + t.handing[k + 1..])
    case AcksOutput(token, offset) => t.(leases := Or(OutputAcknowledged(t.leases, token, offset), t.leases))
    case AcksResize(token, revision, current) =>
      t.(leases := Or(ResizeAcknowledged(t.leases, token, revision, current), t.leases))
  }

  function Run(t: Table, max: nat, actions: seq<Action>): Table
    decreases |actions|
  {
    if actions == [] then t else Run(Step(t, max, actions[0]), max, actions[1..])
  }

  const EMPTY := Table([], [], [], {})

  function Under(given: seq<(string, nat)>, token: string): seq<nat> {
    if given == [] then [] else (if given[0].0 == token then [given[0].1] else []) + Under(given[1..], token)
  }

  function Upto(n: nat): seq<nat> { seq(n, i => i + 1) }

  /** The inputs handed over under the token are 1, 2, 3 and so on. */
  predicate Counted(t: Table, token: string) { Under(t.given, token) == Upto(|Under(t.given, token)|) }

  predicate AlwaysCounted(t: Table, max: nat, actions: seq<Action>, token: string)
    decreases |actions|
  {
    Counted(t, token) && (actions != [] ==> AlwaysCounted(Step(t, max, actions[0]), max, actions[1..], token))
  }

  /** An input is handed over under the token while another one is unrecorded. */
  predicate Overlaps(t: Table, a: Action, token: string) {
    a.Takes? && a.token == token && Admitted(t.leases, token, a.sequence) == Ok(true) && Under(t.handing, token) != []
  }

  predicate NeverOverlaps(t: Table, max: nat, actions: seq<Action>, token: string)
    decreases |actions|
  {
    actions != [] ==>
      !Overlaps(t, actions[0], token) && NeverOverlaps(Step(t, max, actions[0]), max, actions[1..], token)
  }

  lemma {:induction false} UnderConcat(a: seq<(string, nat)>, b: seq<(string, nat)>, token: string)
    ensures Under(a + b, token) == Under(a, token) + Under(b, token)
  {
    if a == [] {
      assert a + b == b;
    } else {
      UnderConcat(a[1..], b, token);
      assert (a + b)[0] == a[0] && (a + b)[1..] == a[1..] + b;
      Associative(if a[0].0 == token then [a[0].1] else [], Under(a[1..], token), Under(b, token));
    }
  }

  lemma {:induction false} UnderSnoc(given: seq<(string, nat)>, last: (string, nat), token: string)
    ensures Under(given + [last], token) == Under(given, token) + if last.0 == token then [last.1] else []
  {
    UnderConcat(given, [last], token);
    assert [last][1..] == [];
    assert Under([last], token) == (if last.0 == token then [last.1] else []) + [];
  }

  /** Taking one out of those in hand. */
  lemma {:induction false} UnderWithout(given: seq<(string, nat)>, k: nat, token: string)
    requires k < |given|
    ensures var rest := Under(given[..k], token) + Under(given[k + 1..], token);
            && Under(given[..k] + given[k + 1..], token) == rest
            && (given[k].0 != token ==> rest == Under(given, token))
            && (given[k].0 == token && |Under(given, token)| <= 1 ==>
                  rest == [] && Under(given, token) == [given[k].1])
  {
    UnderConcat(given[..k], given[k + 1..], token);
    UnderConcat(given[..k + 1], given[k + 1..], token);
    UnderSnoc(given[..k], given[k], token);
    assert given == given[..k + 1] + given[k + 1..] && given[..k + 1] == given[..k] + [given[k]];
  }

  // ----- The table stays in bounds, and viewers' leases let nothing through -----

  predicate Proper(l: Lease, given: seq<(string, nat)>, used: set<string>) {
    l.token in used && (!l.input ==> Under(given, l.token) == [])
  }

  ghost predicate Kept(t: Table, max: nat) {
    && Distinct(t.leases) && |t.leases| <= max
    && (forall l :: l in t.leases ==> Proper(l, t.given, t.used))
    && (forall token :: token !in t.used ==> Under(t.given, token) == [])
  }

  lemma {:induction false} ClaimKept(t: Table, max: nat, a: Action)
    requires Kept(t, max) && 1 <= max && a.Claims?
    ensures Kept(Step(t, max, a), max)
  {
    hide Under;
    hide FirstIdle;
    var r := Claim(t.leases, max, a.requested, a.connection, a.input, a.token);
    if a.token !in t.used && r.Ok? {
      if a.input && a.requested.Some? {
        hide Claim;
        ResumeForm(t.leases, max, a.requested.value, a.connection, a.token);
        SetKept(t, Place(t.leases, a.requested.value), r.value[Place(t.leases, a.requested.value)], t.used + {a.token});
      } else {
        RequestIsIgnored(t.leases, max, a.requested, a.connection, a.input, a.token);
        NewClaimForm(t.leases, max, a.connection, a.input, a.token);
        RoomKeeps(t.leases, max);
        hide Claim;
        hide MadeRoom;
        AddKept(MadeRoom(t.leases, max), Lease(a.token, Some(a.connection), a.input, 0, 0, 0), t.given, t.used);
      }
    }
  }

  lemma {:induction false} ResumeForm(leases: seq<Lease>, max: nat, requested: string, connection: nat, token: string)
    requires Claim(leases, max, Some(requested), connection, true, token).Ok?
    ensures var i := Place(leases, requested);
            i < |leases| && Claim(leases, max, Some(requested), connection, true, token).value
                            == leases[i := leases[i].(active := Some(connection))]
  {
  }

  lemma {:induction false} SetKept(t: Table, i: nat, l: Lease, used: set<string>)
    requires Distinct(t.leases) && i < |t.leases| && l.token == t.leases[i].token && l.input == t.leases[i].input
    requires t.used <= used && forall k :: k in t.leases ==> Proper(k, t.given, t.used)
    ensures Distinct(t.leases[i := l]) && forall k :: k in t.leases[i := l] ==> Proper(k, t.given, used)
  {
    hide Under;
    var next := t.leases[i := l];
    assert t.leases[i] in t.leases;
    forall k | k in next ensures Proper(k, t.given, used) {
      var j :| 0 <= j < |next| && next[j] == k;
      if j != i { assert t.leases[j] in t.leases; }
    }
  }

  lemma {:induction false} AddKept(leases: seq<Lease>, l: Lease, given: seq<(string, nat)>, used: set<string>)
    requires Distinct(leases) && (forall k :: k in leases ==> Proper(k, given, used))
    requires l.token !in used && Under(given, l.token) == []
    ensures Distinct(leases + [l]) && forall k :: k in leases + [l] ==> Proper(k, given, used + {l.token})
  {
    assert forall i :: 0 <= i < |leases| ==> leases[i] in leases && Proper(leases[i], given, used);
  }

  lemma {:induction false} ReleaseKept(t: Table, max: nat, connection: nat)
    requires Kept(t, max)
    ensures Kept(Step(t, max, Releases(connection)), max)
  {
    hide Under;
    var next := Released(t.leases, connection);
    forall l | l in next ensures Proper(l, t.given, t.used) {
      var i :| 0 <= i < |next| && next[i] == l;
      assert t.leases[i] in t.leases;
    }
  }

  lemma {:induction false} TakeKept(t: Table, max: nat, token: string, sequence: nat)
    requires Kept(t, max)
    ensures Kept(Step(t, max, Takes(token, sequence)), max)
  {
    hide Under;
    if Admitted(t.leases, token, sequence) == Ok(true) {
      var i, given := Place(t.leases, token), t.given + [(token, sequence)];
      assert t.leases[i] in t.leases && Proper(t.leases[i], t.given, t.used);
      forall other ensures Under(given, other) == Under(t.given, other) + if other == token then [sequence] else [] {
        UnderSnoc(t.given, (token, sequence), other);
      }
      forall l | l in t.leases ensures Proper(l, given, t.used) {
        var j :| 0 <= j < |t.leases| && t.leases[j] == l;
        assert l.token == token ==> j == i;
      }
    }
  }

  /** Records and acknowledgements change one lease, and not who may write under it. */
  lemma {:induction false} OtherKept(t: Table, max: nat, a: Action)
    requires Kept(t, max) && (a.Records? || a.AcksOutput? || a.AcksResize?)
    ensures Kept(Step(t, max, a), max)
  {
    hide Under;
    if a.Records? {
      if a.index < |t.handing| {
        var i := Place(t.leases, t.handing[a.index].0);
        if i < |t.leases| { SetKept(t, i, Step(t, max, a).leases[i], t.used); }
      }
    } else {
      var i := Place(t.leases, a.token);
      if i < |t.leases| { SetKept(t, i, Step(t, max, a).leases[i], t.used); }
    }
  }

  lemma {:induction false} StepKept(t: Table, max: nat, a: Action)
    requires Kept(t, max) && 1 <= max
    ensures Kept(Step(t, max, a), max)
  {
    hide Kept;
    match a
    case Claims(_, _, _, _) => ClaimKept(t, max, a);
    case Releases(connection) => ReleaseKept(t, max, connection);
    case Takes(token, sequence) => TakeKept(t, max, token, sequence);
    case _ => OtherKept(t, max, a);
  }

  lemma {:induction false} RunKept(t: Table, max: nat, actions: seq<Action>)
    requires Kept(t, max) && 1 <= max
    ensures Kept(Run(t, max, actions), max)
    decreases |actions|
  {
    hide Step;
    hide Kept;
    if actions != [] {
      StepKept(t, max, actions[0]);
      RunKept(Step(t, max, actions[0]), max, actions[1..]);
    }
  }

  /** Over any claims, releases, evictions and inputs from any attachments: the table stays within its bound, no
      token is in it twice, and nothing is ever handed over under a viewer's. */
  lemma {:induction false} ViewersWriteNothing(max: nat, actions: seq<Action>, l: Lease)
    requires 1 <= max
    ensures var t := Run(EMPTY, max, actions);
            && |t.leases| <= max && Distinct(t.leases)
            && (l in t.leases && !l.input ==> Under(t.given, l.token) == [])
  {
    assert Kept(EMPTY, max);
    RunKept(EMPTY, max, actions);
    var t := Run(EMPTY, max, actions);
    assert l in t.leases ==> Proper(l, t.given, t.used);
  }

  // ----- What a lease remembers -----

  /** A lease that is still in the table remembers the offset and the revision acknowledged last under its token
      and the input recorded last, whatever else happens, and changes hands only by a claim or a release. */
  lemma {:induction false} LeaseRemembers(t: Table, max: nat, a: Action, l: Lease, k: Lease)
    requires Kept(t, max) && 1 <= max && l in t.leases && k in Step(t, max, a).leases && k.token == l.token
    ensures k.input == l.input
    ensures k.outputOffset == if a.AcksOutput? && a.token == l.token then a.offset else l.outputOffset
    ensures k.resizeRevision == (if a.AcksResize? && a.token == l.token && l.resizeRevision <= a.revision <= a.current
                                 then a.revision else l.resizeRevision)
    ensures k.sequence == (if a.Records? && a.index < |t.handing| && t.handing[a.index].0 == l.token
                           then t.handing[a.index].1 else l.sequence)
    ensures k.active != l.active ==>
              (a.Releases? && l.active == Some(a.connection) && k.active == None)
              || (a.Claims? && a.requested == Some(l.token) && k.active == Some(a.connection)
                  && (l.active == None || l.active == k.active))
  {
    hide Kept;
    KeptDistinct(t, max);
    match a
    case Claims(_, _, _, _) => ClaimRemembers(t, max, a, l, k);
    case Releases(connection) => ReleaseRemembers(t.leases, connection, l, k);
    case Takes(_, _) => SetRemembers(t.leases, |t.leases|, l, l, k);
    case Records(index) =>
      if index < |t.handing| {
        var i := Place(t.leases, t.handing[index].0);
        SetRemembers(t.leases, i, if i < |t.leases| then t.leases[i].(sequence := t.handing[index].1) else l, l, k);
      } else {
        SetRemembers(t.leases, |t.leases|, l, l, k);
      }
    case AcksOutput(token, offset) =>
      var i := Place(t.leases, token);
      SetRemembers(t.leases, i, if i < |t.leases| then t.leases[i].(outputOffset := offset) else l, l, k);
    case AcksResize(token, revision, current) =>
      var i := Place(t.leases, token);
      var changes := i < |t.leases| && t.leases[i].resizeRevision <= revision <= current;
      SetRemembers(t.leases, if changes then i else |t.leases|,
                   if changes then t.leases[i].(resizeRevision := revision) else l, l, k);
  }

  /** After one lease was replaced, or none. */
  lemma {:induction false} SetRemembers(leases: seq<Lease>, i: nat, with: Lease, l: Lease, k: Lease)
    requires Distinct(leases) && l in leases && k.token == l.token
    requires i < |leases| ==> with.token == leases[i].token
    requires k in if i < |leases| then leases[i := with] else leases
    ensures k == if i < |leases| && leases[i].token == l.token then with else l
    ensures i < |leases| && leases[i].token == l.token ==> leases[i] == l
  {
    var p :| 0 <= p < |leases| && leases[p] == l;
    var next := if i < |leases| then leases[i := with] else leases;
    var q :| 0 <= q < |next| && next[q] == k;
    assert leases[q].token == l.token;
  }

  lemma {:induction false} ReleaseRemembers(leases: seq<Lease>, connection: nat, l: Lease, k: Lease)
    requires Distinct(leases) && l in leases && k.token == l.token && k in Released(leases, connection)
    ensures k == if l.active == Some(connection) then l.(active := None) else l
  {
    var p :| 0 <= p < |leases| && leases[p] == l;
    var q :| 0 <= q < |leases| && Released(leases, connection)[q] == k;
    assert leases[q].token == l.token;
  }

  lemma {:induction false} ClaimRemembers(t: Table, max: nat, a: Action, l: Lease, k: Lease)
    requires Kept(t, max) && 1 <= max && a.Claims? && l in t.leases && k in Step(t, max, a).leases && k.token == l.token
    ensures k == l || (k == l.(active := Some(a.connection)) && a.requested == Some(l.token)
                       && (l.active == None || l.active == k.active))
  {
    hide Under;
    hide FirstIdle;
    var r := Claim(t.leases, max, a.requested, a.connection, a.input, a.token);
    var i :| 0 <= i < |t.leases| && t.leases[i] == l;
    PlaceIs(t.leases, i);
    assert Proper(l, t.given, t.used);
    var next := Step(t, max, a).leases;
    var j :| 0 <= j < |next| && next[j] == k;
    if a.token in t.used || r.Err? {
      PlaceIs(t.leases, j);
    } else if a.input && a.requested.Some? {
      hide Claim;
      ResumedFrom(t.leases, max, a.requested.value, a.connection, a.token);
      var p := Place(t.leases, a.requested.value);
      if j == p { PlaceIs(t.leases, p); } else { PlaceIs(t.leases, j); }
    } else {
      RequestIsIgnored(t.leases, max, a.requested, a.connection, a.input, a.token);
      NewClaimForm(t.leases, max, a.connection, a.input, a.token);
      RoomKeeps(t.leases, max);
      hide Claim;
      var room := MadeRoom(t.leases, max);
      if j < |room| {
        assert room[j] in room;
        var m :| 0 <= m < |t.leases| && t.leases[m] == k;
        PlaceIs(t.leases, m);
      }
    }
  }

  /** A resumed lease was idle, or the attachment held it already. */
  lemma {:induction false} ResumedFrom(leases: seq<Lease>, max: nat, requested: string, connection: nat, token: string)
    requires Claim(leases, max, Some(requested), connection, true, token).Ok?
    ensures var i := Place(leases, requested);
            && i < |leases| && (leases[i].active == None || leases[i].active == Some(connection))
            && Claim(leases, max, Some(requested), connection, true, token).value
               == leases[i := leases[i].(active := Some(connection))]
  {
  }

  // ----- Inputs are counted without gap or repetition -----

  /** Where the lease stands, with at most one input in hand. */
  predicate Stands(l: Lease, t: Table) {
    var hand := Under(t.handing, l.token);
    (hand == [] || hand == [l.sequence + 1]) && Under(t.given, l.token) == Upto(l.sequence + |hand|)
  }

  predicate Tallied(t: Table, token: string) {
    && Counted(t, token) && |Under(t.handing, token)| <= 1
    && (token !in t.used ==> Under(t.given, token) == [] && Under(t.handing, token) == [])
    && (Place(t.leases, token) < |t.leases| ==> Stands(t.leases[Place(t.leases, token)], t))
  }

  lemma {:induction false} PlaceIs(leases: seq<Lease>, i: nat)
    requires Distinct(leases) && i < |leases|
    ensures Place(leases, leases[i].token) == i
  {
  }

  /** The lease of a token after a step that hands nothing over and records nothing. */
  lemma {:induction false} SamePlace(leases: seq<Lease>, next: seq<Lease>, token: string)
    requires Distinct(leases) && Distinct(next)
    requires forall l :: l in next && l.token == token ==>
               exists k :: k in leases && k.token == token && k.sequence == l.sequence
    ensures Place(next, token) < |next| ==>
              Place(leases, token) < |leases|
              && leases[Place(leases, token)].sequence == next[Place(next, token)].sequence
  {
    var i := Place(next, token);
    if i < |next| {
      assert next[i] in next;
      var k :| k in leases && k.token == token && k.sequence == next[i].sequence;
      var j :| 0 <= j < |leases| && leases[j] == k;
      PlaceIs(leases, j);
    }
  }

  lemma {:induction false} QuietTallied(t: Table, next: seq<Lease>, used: set<string>, token: string)
    requires Tallied(t, token) && Distinct(t.leases) && Distinct(next) && t.used <= used
    requires forall l :: l in next && l.token == token ==>
               exists k :: k in t.leases && k.token == token && k.sequence == l.sequence
    ensures Tallied(t.(leases := next, used := used), token)
  {
    hide Under;
    hide Distinct;
    SamePlace(t.leases, next, token);
  }

  lemma {:induction false} ReleaseTallied(t: Table, max: nat, connection: nat, token: string)
    requires Kept(t, max) && Tallied(t, token)
    ensures Tallied(Step(t, max, Releases(connection)), token)
  {
    hide Under;
    hide Tallied;
    var next := Released(t.leases, connection);
    forall l | l in next && l.token == token
      ensures exists k :: k in t.leases && k.token == token && k.sequence == l.sequence
    {
      var i :| 0 <= i < |next| && next[i] == l;
      assert t.leases[i] in t.leases;
    }
    QuietTallied(t, next, t.used, token);
  }

  /** Changing anything but the sequence of a lease. */
  lemma {:induction false} SetTallied(t: Table, i: nat, l: Lease, used: set<string>, token: string)
    requires Tallied(t, token) && Distinct(t.leases) && i < |t.leases| && t.used <= used
    requires l.token == t.leases[i].token && l.sequence == t.leases[i].sequence
    ensures Tallied(t.(leases := t.leases[i := l], used := used), token)
  {
    hide Under;
    hide Tallied;
    var next := t.leases[i := l];
    assert t.leases[i] in t.leases;
    forall k | k in next && k.token == token
      ensures exists m :: m in t.leases && m.token == token && m.sequence == k.sequence
    {
      var j :| 0 <= j < |next| && next[j] == k;
      if j != i { assert k in t.leases; }
    }
    QuietTallied(t, next, used, token);
  }

  lemma {:induction false} ClaimTallied(t: Table, max: nat, a: Action, token: string)
    requires Kept(t, max) && 1 <= max && a.Claims? && Tallied(t, token)
    ensures Tallied(Step(t, max, a), token)
  {
    hide Under;
    hide FirstIdle;
    hide Tallied;
    var r := Claim(t.leases, max, a.requested, a.connection, a.input, a.token);
    var used := t.used + {a.token};
    if a.token in t.used { return; }
    if r.Err? {
      QuietTallied(t, t.leases, used, token);
    } else if a.input && a.requested.Some? {
      hide Claim;
      ResumeForm(t.leases, max, a.requested.value, a.connection, a.token);
      SetTallied(t, Place(t.leases, a.requested.value), r.value[Place(t.leases, a.requested.value)], used, token);
    } else {
      RequestIsIgnored(t.leases, max, a.requested, a.connection, a.input, a.token);
      NewClaimForm(t.leases, max, a.connection, a.input, a.token);
      ClaimKept(t, max, a);
      RoomKeeps(t.leases, max);
      hide Claim;
      hide MadeRoom;
      AddTallied(t, MadeRoom(t.leases, max), Lease(a.token, Some(a.connection), a.input, 0, 0, 0), token);
    }
  }

  lemma {:induction false} AddTallied(t: Table, room: seq<Lease>, l: Lease, token: string)
    requires Tallied(t, token) && Distinct(t.leases) && Distinct(room) && Distinct(room + [l])
    requires (forall k :: k in room ==> k in t.leases) && l.token !in t.used && l.sequence == 0
    ensures Tallied(t.(leases := room + [l], used := t.used + {l.token}), token)
  {
    hide Under;
    var next := room + [l];
    if token == l.token {
      PlaceIs(next, |room|);
      assert Upto(0) == [];
    } else {
      QuietTallied(t, next, t.used + {l.token}, token);
    }
  }

  lemma {:induction false} TakeTallied(t: Table, max: nat, a: Action, token: string)
    requires Kept(t, max) && a.Takes? && Tallied(t, token) && !Overlaps(t, a, token)
    ensures Tallied(Step(t, max, a), token)
  {
    hide Under;
    if Admitted(t.leases, a.token, a.sequence) == Ok(true) {
      UnderSnoc(t.given, (a.token, a.sequence), token);
      UnderSnoc(t.handing, (a.token, a.sequence), token);
      var l := t.leases[Place(t.leases, a.token)];
      assert l in t.leases && Proper(l, t.given, t.used);
      assert Upto(l.sequence) + [l.sequence + 1] == Upto(l.sequence + 1);
      assert |Upto(l.sequence + 1)| == l.sequence + 1;
    }
  }

  /** The next input is the one in hand, again. */
  lemma {:induction false} OverlapRepeats(t: Table, max: nat, a: Action, token: string)
    requires Tallied(t, token) && Overlaps(t, a, token)
    ensures !Counted(Step(t, max, a), token)
  {
    hide Under;
    UnderSnoc(t.given, (a.token, a.sequence), token);
    var l := t.leases[Place(t.leases, token)];
    var given := Under(t.given, token);
    assert Under(Step(t, max, a).given, token) == given + [l.sequence + 1];
    assert (given + [l.sequence + 1])[|given|] == l.sequence + 1;
    assert Upto(|given| + 1)[|given|] == |given| + 1;
  }

  lemma {:induction false} RecordTallied(t: Table, max: nat, k: nat, token: string)
    requires Kept(t, max) && Tallied(t, token) && k < |t.handing|
    ensures Tallied(Step(t, max, Records(k)), token)
  {
    hide Under;
    UnderWithout(t.handing, k, token);
    var e := t.handing[k];
    var i := Place(t.leases, e.0);
    var next := Recorded(t.leases, e.0, e.1);
    if i < |t.leases| {
      SetKept(t, i, next[i], t.used);
      PlaceIs(next, i);
      if e.0 != token { OtherPlace(t.leases, i, next[i], token); }
    }
  }

  lemma {:induction false} OtherPlace(leases: seq<Lease>, i: nat, l: Lease, token: string)
    requires Distinct(leases) && i < |leases| && l.token == leases[i].token && token != l.token
    ensures Place(leases[i := l], token) == Place(leases, token)
    ensures Place(leases, token) != i
  {
    var next := leases[i := l];
    var j := Place(leases, token);
    if j < |leases| {
      assert next[j].token == token;
      assert forall k :: 0 <= k < j ==> next[k].token != token;
    } else {
      assert forall k :: 0 <= k < |next| ==> next[k].token != token;
    }
  }

  lemma {:induction false} KeptDistinct(t: Table, max: nat)
    requires Kept(t, max)
    ensures Distinct(t.leases)
  {
  }

  lemma {:induction false} StepTallied(t: Table, max: nat, a: Action, token: string)
    requires Kept(t, max) && 1 <= max && Tallied(t, token) && !Overlaps(t, a, token)
    ensures Tallied(Step(t, max, a), token)
  {
    hide Kept;
    hide Tallied;
    hide Overlaps;
    match a
    case Claims(_, _, _, _) => ClaimTallied(t, max, a, token);
    case Releases(connection) => ReleaseTallied(t, max, connection, token);
    case Takes(_, _) => TakeTallied(t, max, a, token);
    case Records(k) => if k < |t.handing| { RecordTallied(t, max, k, token); }
    case _ =>
      var i := Place(t.leases, a.token);
      KeptDistinct(t, max);
      if i < |t.leases| { SetTallied(t, i, Step(t, max, a).leases[i], t.used, token); }
  }

  lemma {:induction false} CountsIff(t: Table, max: nat, actions: seq<Action>, token: string)
    requires Kept(t, max) && 1 <= max && Tallied(t, token)
    ensures AlwaysCounted(t, max, actions, token) <==> NeverOverlaps(t, max, actions, token)
    ensures NeverOverlaps(t, max, actions, token) ==> Tallied(Run(t, max, actions), token)
    decreases |actions|
  {
    hide Step;
    hide Kept;
    hide Overlaps;
    assert Counted(t, token);
    hide Tallied;
    hide Counted;
    if actions != [] {
      var a := actions[0];
      StepKept(t, max, a);
      if Overlaps(t, a, token) {
        OverlapRepeats(t, max, a, token);
      } else {
        StepTallied(t, max, a, token);
        CountsIff(Step(t, max, a), max, actions[1..], token);
      }
    }
  }

  /** The inputs handed over under a token are 1, 2, 3 and so on, without gap or repetition, exactly when none is
      handed over under it while another is unrecorded. Then its lease stands at the last of them that was
      recorded, and all but at most one were. */
  lemma {:induction false} LeasesCountInputsIff(max: nat, actions: seq<Action>, token: string)
    requires 1 <= max
    ensures AlwaysCounted(EMPTY, max, actions, token) <==> NeverOverlaps(EMPTY, max, actions, token)
    ensures var t := Run(EMPTY, max, actions);
            NeverOverlaps(EMPTY, max, actions, token) ==>
              |Under(t.handing, token)| <= 1
              && forall l :: l in t.leases && l.token == token ==>
                   |Under(t.given, token)| == l.sequence + |Under(t.handing, token)|
  {
    assert Kept(EMPTY, max) && Tallied(EMPTY, token) by { assert Upto(0) == []; }
    CountsIff(EMPTY, max, actions, token);
    RunKept(EMPTY, max, actions);
    hide Run;
    hide Under;
    var t := Run(EMPTY, max, actions);
    if NeverOverlaps(EMPTY, max, actions, token) {
      forall l | l in t.leases && l.token == token
        ensures |Under(t.given, token)| == l.sequence + |Under(t.handing, token)|
      {
        var i :| 0 <= i < |t.leases| && t.leases[i] == l;
        PlaceIs(t.leases, i);
        assert |Upto(l.sequence + |Under(t.handing, token)|)| == l.sequence + |Under(t.handing, token)|;
      }
    }
  }
}
