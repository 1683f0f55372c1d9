/**
 * A batch of tool calls: committed before it runs, executed concurrently, answered in call order, and
 * resumed after a crash (AgentBase.ts).
 */
module ToolBatch {
  import opened Basics
  import opened OrderedStore
  import QueueKeys

  type Result = string

  const INTERRUPTED: Result := "The tool call was interrupted by a restart and was not retried."
  const ABORTED: Result := "The tool call was aborted."

  /** A durable batch entry; `settled` is a result stored beside the call before it reaches the log. */
  datatype Entry = Entry(id: string, settled: Option<Result>)

  datatype Record = Record(id: string, result: Result)

  /** The durable state: result records, pending entries in key order, and result claims. */
  datatype Store = Store(log: seq<Record>, entries: seq<Entry>, claims: map<string, Result>)

  /** The heap state of a batch that is running. */
  datatype Batch = Batch(
    entries: seq<Entry>,
    resume: bool,
    decided: seq<bool>,
    results: seq<Option<Result>>,
    committed: nat,
    failed: bool)

  /** `staging`: undispatched calls were just stored with their results, which the same run will log next.
      `live` are the calls whose execution is running; a batch is resumed only when none is. `executed` counts
      executions started, `dispatched` is every call ever committed in a batch, and `chosen` the first result
      claimed durably for a call. */
  datatype System = System(
    store: Store,
    batch: Option<Batch>,
    staging: bool,
    live: set<string>,
    executed: map<string, nat>,
    dispatched: seq<string>,
    chosen: map<string, Result>)

  function EntryIds(entries: seq<Entry>): seq<string> {
    seq(|entries|, i requires 0 <= i < |entries| => entries[i].id)
  }

  function RecordIds(log: seq<Record>): seq<string> {
    seq(|log|, i requires 0 <= i < |log| => log[i].id)
  }

  predicate Distinct(s: seq<string>) { forall i, j :: 0 <= i < j < |s| ==> s[i] != s[j] }

  function Delete(entries: seq<Entry>, id: string): seq<Entry> {
    if entries == [] then [] else if entries[0].id == id then entries[1..] else [entries[0]] + Delete(entries[1..], id)
  }

  function Settle(entries: seq<Entry>, id: string, r: Result): seq<Entry> {
    if entries == [] then []
    else if entries[0].id == id then
      [if entries[0].settled.None? then entries[0].(settled := Some(r)) else entries[0]] + entries[1..]
    else [entries[0]] + Settle(entries[1..], id, r)
  }

  /** The transaction that answers one call: the first claim wins, the record is appended, and the entry and
      the claim disappear. */
  function Answer(store: Store, id: string, proposed: Result): (Store, Result) {
    var winner := if id in store.claims then store.claims[id] else proposed;
    (Store(store.log + [Record(id, winner)], Delete(store.entries, id), store.claims - {id}), winner)
  }

  function NewBatch(entries: seq<Entry>, resume: bool): Batch {
    Batch(entries, resume, seq(|entries|, _ => false), seq(|entries|, _ => None), 0, false)
  }

  function Fresh(ids: seq<string>): seq<Entry> {
    seq(|ids|, i requires 0 <= i < |ids| => Entry(ids[i], None))
  }

  function Staged(ids: seq<string>, reason: Result): seq<Entry> {
    seq(|ids|, i requires 0 <= i < |ids| => Entry(ids[i], Some(reason)))
  }

  datatype Action =
    | Dispatch(ids: seq<string>)
    | Stage(ids: seq<string>, reason: Result)
    | SettleStaged
    | Resume
    | Decide(index: nat, aborted: bool)
    | ToolCommits(id: string, result: Result)
    | Finish(index: nat, result: Result)
    | Abort(index: nat)
    | ExecutionEnds(id: string)
    | CommitNext
    | CommitFails
    | BatchEnds
    | Crash

  /** New calls: distinct, and none of them ever dispatched. */
  predicate NewCalls(s: System, ids: seq<string>) {
    ids != [] && Distinct(s.dispatched + ids)
  }

  /** What becomes of one call when its batch starts it. */
  function Decided(s: System, b: Batch, i: nat, aborted: bool, retryable: string -> bool): System
    requires i < |b.entries| && |b.decided| == |b.entries| == |b.results|
  {
    var e := b.entries[i];
    var d := b.(decided := b.decided[i := true]);
    if e.settled.Some? then s.(batch := Some(d.(results := b.results[i := e.settled])))
    else if b.resume && !retryable(e.id) then s.(batch := Some(d.(results := b.results[i := Some(INTERRUPTED)])))
    else if aborted then s.(batch := Some(d.(results := b.results[i := Some(ABORTED)])))
    else
      s.(batch := Some(d), live := s.live + {e.id},
         executed := s.executed[e.id := Executions(s, e.id) + 1])
  }

  function Executions(s: System, id: string): nat { if id in s.executed then s.executed[id] else 0 }

  /** Records of entries that already carry their results, as the settlement of undispatched calls writes them. */
  function SettledRecords(entries: seq<Entry>): seq<Record> {
    seq(|entries|, i requires 0 <= i < |entries| =>
      Record(entries[i].id, if entries[i].settled.Some? then entries[i].settled.value else ""))
  }

  predicate Shaped(b: Batch) { |b.decided| == |b.entries| == |b.results| }

  function Step(s: System, a: Action, retryable: string -> bool): System {
    match a
    case Dispatch(ids) =>
      if s.batch.Some? || s.staging || s.store.entries != [] || !NewCalls(s, ids) then s
      else
        s.(store := s.store.(entries := Fresh(ids)), batch := Some(NewBatch(Fresh(ids), false)),
           dispatched := s.dispatched + ids)
    case Stage(ids, reason) =>
      if s.batch.Some? || s.staging || s.store.entries != [] || !NewCalls(s, ids) then s
      else
        s.(store := s.store.(entries := Staged(ids, reason)), staging := true, dispatched := s.dispatched + ids)
    case SettleStaged =>
      if !s.staging then s
      else
        s.(store := s.store.(log := s.store.log + SettledRecords(s.store.entries), entries := []), staging := false)
    case Resume =>
      if s.batch.Some? || s.staging || s.live != {} || s.store.entries == [] then s
      else s.(batch := Some(NewBatch(s.store.entries, true)))
    case Decide(i, aborted) =>
      if s.batch.None? || !Shaped(s.batch.value) || i >= |s.batch.value.entries| || s.batch.value.decided[i] then s
      else Decided(s, s.batch.value, i, aborted, retryable)
    case ToolCommits(id, result) =>
      if id !in s.live || id in s.store.claims || id !in EntryIds(s.store.entries) then s
      else
        s.(store := s.store.(claims := s.store.claims[id := result],
                             entries := Settle(s.store.entries, id, result)),
           chosen := if id in s.chosen then s.chosen else s.chosen[id := result])
    case Finish(i, result) =>
      if s.batch.None? || !Shaped(s.batch.value) || i >= |s.batch.value.entries| then s
      else
        var b := s.batch.value;
        var id := b.entries[i].id;
        if id !in s.live then s
        else
          s.(live := s.live - {id},
             batch := Some(if b.results[i].None? then b.(results := b.results[i := Some(result)]) else b))
    case Abort(i) =>
      if s.batch.None? || !Shaped(s.batch.value) || i >= |s.batch.value.entries| then s
      else
        var b := s.batch.value;
        if !b.decided[i] || b.results[i].Some? then s
        else s.(batch := Some(b.(results := b.results[i := Some(ABORTED)])))
    case ExecutionEnds(id) => if s.batch.Some? then s else s.(live := s.live - {id})
    case CommitNext =>
      if s.batch.None? || !Shaped(s.batch.value) then s
      else
        var b := s.batch.value;
        if b.failed || b.committed >= |b.entries| || b.results[b.committed].None? then s
        else
          var (store, winner) := Answer(s.store, b.entries[b.committed].id, b.results[b.committed].value);
          s.(store := store,
             batch := Some(b.(results := b.results[b.committed := Some(winner)], committed := b.committed + 1)))
    case CommitFails =>
      if s.batch.None? then s else s.(batch := Some(s.batch.value.(failed := true)))
    case BatchEnds => s.(batch := None, staging := false)
    case Crash => s.(batch := None, staging := false, live := {})
  }

  function Run(s: System, actions: seq<Action>, retryable: string -> bool): System
    decreases |actions|
  {
    if actions == [] then s else Run(Step(s, actions[0], retryable), actions[1..], retryable)
  }

  const START := System(Store([], [], map[]), None, false, {}, map[], [], map[])

  // ----- Every call has an entry or one record, in order -----

  /** Records so far followed by pending entries are exactly the calls dispatched, each once, in order. */
  predicate Accounted(s: System) {
    RecordIds(s.store.log) + EntryIds(s.store.entries) == s.dispatched && Distinct(s.dispatched)
  }

  /** A running batch still owes its entries from `committed` on. */
  predicate BatchOwes(s: System) {
    s.batch.Some? ==>
      var b := s.batch.value;
      && Shaped(b) && b.committed <= |b.entries|
      && EntryIds(b.entries)[b.committed..] == EntryIds(s.store.entries)
      && Distinct(EntryIds(b.entries)) && forall id :: id in EntryIds(b.entries) ==> id in s.dispatched
  }

  lemma {:induction false} DeleteFirst(entries: seq<Entry>)
    requires entries != []
    ensures Delete(entries, entries[0].id) == entries[1..]
  {
  }

  lemma {:induction false} SettleKeepsIds(entries: seq<Entry>, id: string, r: Result)
    ensures EntryIds(Settle(entries, id, r)) == EntryIds(entries)
  {
    if entries != [] && entries[0].id != id {
      SettleKeepsIds(entries[1..], id, r);
      assert EntryIds(entries) == [entries[0].id] + EntryIds(entries[1..]);
    }
  }

  predicate MayCommit(s: System) {
    s.batch.Some? && Shaped(s.batch.value) && !s.batch.value.failed
    && s.batch.value.committed < |s.batch.value.entries| && s.batch.value.results[s.batch.value.committed].Some?
  }

  /** What a commit does to the durable state: the first pending call moves to the end of the log. */
  lemma {:induction false} CommitMoves(s: System, retryable: string -> bool)
    requires BatchOwes(s) && MayCommit(s)
    ensures var t := Step(s, CommitNext, retryable);
            var b, entries := s.batch.value, s.store.entries;
            && entries != [] && entries[0].id == b.entries[b.committed].id
            && t.store.entries == entries[1..]
            && RecordIds(t.store.log) == RecordIds(s.store.log) + [entries[0].id]
            && EntryIds(entries) == [entries[0].id] + EntryIds(entries[1..])
            && t.dispatched == s.dispatched
            && t.batch == Some(b.(results := t.batch.value.results, committed := b.committed + 1))
            && |t.batch.value.results| == |b.results|
  {
    var b, entries := s.batch.value, s.store.entries;
    assert EntryIds(b.entries)[b.committed..][0] == b.entries[b.committed].id;
    assert EntryIds(entries)[0] == entries[0].id;
    DeleteFirst(entries);
  }

  lemma {:induction false} CommitAccounted(s: System, retryable: string -> bool)
    requires Accounted(s) && BatchOwes(s)
    ensures var t := Step(s, CommitNext, retryable); Accounted(t) && BatchOwes(t)
  {
    if MayCommit(s) {
      CommitMoves(s, retryable);
      var b, entries := s.batch.value, s.store.entries;
      assert EntryIds(b.entries)[b.committed + 1..] == EntryIds(b.entries)[b.committed..][1..];
      assert EntryIds(entries)[1..] == EntryIds(entries[1..]);
      assert RecordIds(s.store.log) + [entries[0].id] + EntryIds(entries[1..])
          == RecordIds(s.store.log) + EntryIds(entries);
      hide Step;
    }
  }

  lemma {:induction false} DispatchAccounted(s: System, a: Action, retryable: string -> bool)
    requires Accounted(s) && BatchOwes(s) && (a.Dispatch? || a.Stage?)
    ensures var t := Step(s, a, retryable); Accounted(t) && BatchOwes(t)
  {
    if NewCalls(s, a.ids) {
      assert EntryIds(Fresh(a.ids)) == a.ids;
      if a.Stage? { assert EntryIds(Staged(a.ids, a.reason)) == a.ids; }
      assert RecordIds(s.store.log) + [] == RecordIds(s.store.log);
      forall i, j | 0 <= i < j < |a.ids| ensures a.ids[i] != a.ids[j] {
        assert (s.dispatched + a.ids)[|s.dispatched| + i] == a.ids[i];
        assert (s.dispatched + a.ids)[|s.dispatched| + j] == a.ids[j];
      }
    }
  }

  lemma {:induction false} StepAccounted(s: System, a: Action, retryable: string -> bool)
    requires Accounted(s) && BatchOwes(s) && (s.staging ==> s.batch.None?)
    ensures var t := Step(s, a, retryable); Accounted(t) && BatchOwes(t)
  {
    hide Distinct;
    hide Settle;
    hide Answer;
    hide Fresh;
    hide Staged;
    hide Delete;
    match a
    case Dispatch(_) => DispatchAccounted(s, a, retryable);
    case Stage(_, _) => DispatchAccounted(s, a, retryable);
    case SettleStaged =>
      if s.staging {
        var t := Step(s, a, retryable);
        assert RecordIds(t.store.log) == RecordIds(s.store.log) + EntryIds(s.store.entries);
        assert RecordIds(t.store.log) + [] == RecordIds(t.store.log);
      }
    case Resume => ResumeAccounted(s, retryable);
    case ToolCommits(id, result) => SettleKeepsIds(s.store.entries, id, result);
    case CommitNext => CommitAccounted(s, retryable);
    case _ =>
  }

  lemma {:induction false} ResumeAccounted(s: System, retryable: string -> bool)
    requires Accounted(s) && BatchOwes(s)
    ensures var t := Step(s, Resume, retryable); Accounted(t) && BatchOwes(t)
  {
    var ids := EntryIds(s.store.entries);
    assert forall i :: 0 <= i < |ids| ==> s.dispatched[|RecordIds(s.store.log)| + i] == ids[i];
    assert ids[0..] == ids;
  }

  // ----- The first durable claim wins -----

  predicate ClaimsHold(s: System) {
    && (forall id :: id in s.store.claims ==>
          id in EntryIds(s.store.entries) && id in s.chosen && s.chosen[id] == s.store.claims[id])
    && (forall id :: id in s.chosen && id in EntryIds(s.store.entries) ==> id in s.store.claims)
    && (forall id :: id in s.chosen ==> id in s.dispatched)
    && (forall k :: 0 <= k < |s.store.log| && s.store.log[k].id in s.chosen ==>
          s.store.log[k].result == s.chosen[s.store.log[k].id])
  }

  /** Executions are of dispatched calls, and none is of a call stored with its result. */
  predicate StagingHolds(s: System) {
    && (forall id :: id in s.live ==> id in s.dispatched)
    && (s.staging ==>
          && s.batch.None?
          && forall id :: id in EntryIds(s.store.entries) ==> id !in s.live && id !in s.chosen)
  }

  lemma {:induction false} ApartWhenDistinct(a: seq<string>, b: seq<string>)
    requires Distinct(a + b)
    ensures forall id :: id in b ==> id !in a
  {
    forall i, j | 0 <= i < |a| && 0 <= j < |b| ensures a[i] != b[j] {
      assert (a + b)[i] == a[i] && (a + b)[|a| + j] == b[j];
    }
  }

  /** A call that is pending has no record, and the first pending call is pending once. */
  lemma {:induction false} PendingIsUnanswered(s: System)
    requires Accounted(s)
    ensures forall k :: 0 <= k < |s.store.log| ==> s.store.log[k].id !in EntryIds(s.store.entries)
    ensures forall id :: id in EntryIds(s.store.entries) ==> id in s.dispatched
    ensures var ids := EntryIds(s.store.entries); ids != [] ==> ids[0] !in ids[1..]
  {
    var records, ids := RecordIds(s.store.log), EntryIds(s.store.entries);
    ApartWhenDistinct(records, ids);
    assert forall k :: 0 <= k < |s.store.log| ==> records[k] == s.store.log[k].id && records[k] in records;
    forall i, j | 0 <= i < j < |ids| ensures ids[i] != ids[j] {
      assert s.dispatched[|records| + i] == ids[i] && s.dispatched[|records| + j] == ids[j];
    }
  }

  lemma {:induction false} CommitClaims(s: System, retryable: string -> bool)
    requires Accounted(s) && BatchOwes(s) && ClaimsHold(s)
    ensures ClaimsHold(Step(s, CommitNext, retryable))
  {
    var t := Step(s, CommitNext, retryable);
    PendingIsUnanswered(s);
    if s.batch.Some? {
      var b := s.batch.value;
      if !b.failed && b.committed < |b.entries| && b.results[b.committed].Some? {
        var entries, id := s.store.entries, b.entries[b.committed].id;
        var ids := EntryIds(entries);
        assert EntryIds(b.entries)[b.committed..][0] == id == ids[0] == entries[0].id;
        DeleteFirst(entries);
        assert EntryIds(t.store.entries) == ids[1..];
        assert ids == [id] + ids[1..];
        assert forall k :: 0 <= k < |s.store.log| ==> t.store.log[k] == s.store.log[k];
      }
    }
  }

  lemma {:induction false} ToolCommitClaims(s: System, id: string, result: Result, retryable: string -> bool)
    requires Accounted(s) && ClaimsHold(s)
    ensures ClaimsHold(Step(s, ToolCommits(id, result), retryable))
  {
    SettleKeepsIds(s.store.entries, id, result);
    PendingIsUnanswered(s);
  }

  lemma {:induction false} NewCallsClaims(s: System, a: Action, retryable: string -> bool)
    requires Accounted(s) && ClaimsHold(s) && StagingHolds(s)
    requires a.Dispatch? || a.Stage?
    ensures ClaimsHold(Step(s, a, retryable)) && StagingHolds(Step(s, a, retryable))
  {
    if NewCalls(s, a.ids) {
      ApartWhenDistinct(s.dispatched, a.ids);
      assert EntryIds(Fresh(a.ids)) == a.ids;
      if a.Stage? { assert EntryIds(Staged(a.ids, a.reason)) == a.ids; }
    }
  }

  lemma {:induction false} SettleClaims(s: System, retryable: string -> bool)
    requires Accounted(s) && ClaimsHold(s) && StagingHolds(s)
    ensures ClaimsHold(Step(s, SettleStaged, retryable)) && StagingHolds(Step(s, SettleStaged, retryable))
  {
    var t := Step(s, SettleStaged, retryable);
    if s.staging {
      var entries := s.store.entries;
      assert forall i :: 0 <= i < |entries| ==> EntryIds(entries)[i] == entries[i].id && EntryIds(entries)[i] !in s.chosen;
      assert forall k :: |s.store.log| <= k < |t.store.log| ==>
               t.store.log[k].id == entries[k - |s.store.log|].id;
    }
  }

  /** Everything the durable state and the running batch keep. */
  predicate Sound(s: System) {
    Accounted(s) && BatchOwes(s) && ClaimsHold(s) && StagingHolds(s)
  }

  lemma {:induction false} OtherClaims(s: System, a: Action, retryable: string -> bool)
    requires Sound(s)
    requires a.Resume? || a.Finish? || a.Abort? || a.ExecutionEnds? || a.CommitFails? || a.BatchEnds? || a.Crash?
    ensures ClaimsHold(Step(s, a, retryable)) && StagingHolds(Step(s, a, retryable))
  {
    assert Step(s, a, retryable).store == s.store;
  }

  lemma {:induction false} DecideStaging(s: System, i: nat, aborted: bool, retryable: string -> bool)
    requires Sound(s)
    ensures ClaimsHold(Step(s, Decide(i, aborted), retryable)) && StagingHolds(Step(s, Decide(i, aborted), retryable))
  {
    if s.batch.Some? && i < |s.batch.value.entries| {
      assert EntryIds(s.batch.value.entries)[i] == s.batch.value.entries[i].id;
    }
  }

  lemma {:induction false} StepSound(s: System, a: Action, retryable: string -> bool)
    requires Sound(s)
    ensures Sound(Step(s, a, retryable))
  {
    StepAccounted(s, a, retryable);
    hide Step;
    match a
    case Dispatch(_) => NewCallsClaims(s, a, retryable);
    case Stage(_, _) => NewCallsClaims(s, a, retryable);
    case SettleStaged => SettleClaims(s, retryable);
    case Decide(i, aborted) => DecideStaging(s, i, aborted, retryable);
    case ToolCommits(id, result) =>
      ToolCommitClaims(s, id, result, retryable);
      ToolCommitStaging(s, id, result, retryable);
    case CommitNext =>
      CommitClaims(s, retryable);
      CommitStaging(s, retryable);
    case _ => OtherClaims(s, a, retryable);
  }

  lemma {:induction false} ToolCommitStaging(s: System, id: string, result: Result, retryable: string -> bool)
    requires Sound(s)
    ensures StagingHolds(Step(s, ToolCommits(id, result), retryable))
  {
    SettleKeepsIds(s.store.entries, id, result);
  }

  lemma {:induction false} CommitStaging(s: System, retryable: string -> bool)
    requires Sound(s)
    ensures StagingHolds(Step(s, CommitNext, retryable))
  {
  }

  lemma {:induction false} RunSound(s: System, actions: seq<Action>, retryable: string -> bool)
    requires Sound(s)
    ensures Sound(Run(s, actions, retryable))
    decreases |actions|
  {
    hide Step;
    hide Sound;
    if actions != [] {
      StepSound(s, actions[0], retryable);
      RunSound(Step(s, actions[0], retryable), actions[1..], retryable);
    }
  }

  lemma {:induction false} StartSound()
    ensures Sound(START)
  {
  }

  /** Over any crashes, failures and restarts, every call dispatched has either its pending entry or exactly
      one result record, and the records stand in the order of the calls. */
  lemma {:induction false} EveryCallAnsweredOnce(actions: seq<Action>, retryable: string -> bool)
    ensures var s := Run(START, actions, retryable);
            && RecordIds(s.store.log) + EntryIds(s.store.entries) == s.dispatched
            && Distinct(s.dispatched)
  {
    StartSound();
    RunSound(START, actions, retryable);
  }

  /** A result a tool committed durably is the one the log records, whatever the execution returned later. */
  lemma {:induction false} FirstClaimIsRecorded(actions: seq<Action>, retryable: string -> bool, k: nat)
    ensures var s := Run(START, actions, retryable);
            k < |s.store.log| && s.store.log[k].id in s.chosen ==>
              s.store.log[k].result == s.chosen[s.store.log[k].id]
  {
    StartSound();
    RunSound(START, actions, retryable);
  }

  // ----- How often a call runs -----

  ghost predicate Undecided(s: System, id: string) {
    s.batch.Some? && exists i :: 0 <= i < |s.batch.value.entries| && s.batch.value.entries[i].id == id
                                 && i < |s.batch.value.decided| && !s.batch.value.decided[i]
  }

  /** A call that may not be retried has run at most once, and not yet if its first batch still has to decide
      about it; no call is decided about while an execution of it is live. */
  ghost predicate RunsOnce(s: System, retryable: string -> bool) {
    && (forall id :: !retryable(id) ==> Executions(s, id) <= 1)
    && (forall id :: id !in s.dispatched ==> Executions(s, id) == 0)
    && (forall id :: !retryable(id) && Undecided(s, id) && !s.batch.value.resume ==> Executions(s, id) == 0)
    && (forall id :: Undecided(s, id) ==> id !in s.live)
  }

  /** Nothing new is undecided, and nothing new is live. */
  predicate Quieter(s: System, t: System) {
    && t.executed == s.executed && t.live <= s.live && s.dispatched <= t.dispatched
    && (t.batch.Some? ==>
          && s.batch.Some?
          && t.batch.value.entries == s.batch.value.entries && t.batch.value.decided == s.batch.value.decided
          && t.batch.value.resume == s.batch.value.resume)
  }

  lemma {:induction false} QuieterRunsOnce(s: System, t: System, retryable: string -> bool)
    requires RunsOnce(s, retryable) && Quieter(s, t)
    ensures RunsOnce(t, retryable)
  {
    forall id ensures Executions(t, id) == Executions(s, id) && (Undecided(t, id) ==> Undecided(s, id))
                      && (id !in t.dispatched ==> id !in s.dispatched) {
      if id in s.dispatched {
        var k :| 0 <= k < |s.dispatched| && s.dispatched[k] == id;
        assert t.dispatched[k] == id;
      }
      if Undecided(t, id) {
        var i :| 0 <= i < |t.batch.value.entries| && t.batch.value.entries[i].id == id
                 && i < |t.batch.value.decided| && !t.batch.value.decided[i];
        assert s.batch.value.entries[i].id == id;
      }
    }
  }

  lemma {:induction false} QuietStep(s: System, a: Action, retryable: string -> bool)
    requires !a.Dispatch? && !a.Resume? && !a.Decide?
    ensures Quieter(s, Step(s, a, retryable))
  {
  }

  lemma {:induction false} NewBatchRunsOnce(s: System, a: Action, retryable: string -> bool)
    requires Sound(s) && RunsOnce(s, retryable) && (a.Dispatch? || a.Resume?)
    ensures RunsOnce(Step(s, a, retryable), retryable)
  {
    var t := Step(s, a, retryable);
    if t != s {
      if a.Dispatch? {
        ApartWhenDistinct(s.dispatched, a.ids);
        forall id | Undecided(t, id) ensures id !in s.dispatched {
          var i :| 0 <= i < |t.batch.value.entries| && t.batch.value.entries[i].id == id;
          assert a.ids[i] == id;
        }
      }
      assert forall id :: Executions(t, id) == Executions(s, id);
    }
  }

  /** What deciding about a call changes for the others, and for itself. */
  lemma {:induction false} DecideEffect(s: System, i: nat, aborted: bool, retryable: string -> bool)
    requires Sound(s) && s.batch.Some? && i < |s.batch.value.entries| && !s.batch.value.decided[i]
    ensures var t := Step(s, Decide(i, aborted), retryable);
            var mine := s.batch.value.entries[i].id;
            && (forall id :: Undecided(t, id) ==> Undecided(s, id) && id != mine)
            && (forall id :: id != mine ==> Executions(t, id) == Executions(s, id))
            && Executions(t, mine) <= Executions(s, mine) + 1
            && (Executions(t, mine) > Executions(s, mine) ==> !s.batch.value.resume || retryable(mine))
            && t.batch.Some? && t.batch.value.resume == s.batch.value.resume
            && t.live <= s.live + {mine} && t.dispatched == s.dispatched
            && Undecided(s, mine) && mine in s.dispatched
  {
    var t := Step(s, Decide(i, aborted), retryable);
    var b := s.batch.value;
    assert EntryIds(b.entries)[i] == b.entries[i].id;
    DecideForm(s, i, aborted, retryable);
    UndecidedShrinks(s, t, i);
  }

  lemma {:induction false} DecidedForm(s: System, i: nat, aborted: bool, retryable: string -> bool)
    requires s.batch.Some? && Shaped(s.batch.value) && i < |s.batch.value.entries|
    ensures var t := Decided(s, s.batch.value, i, aborted, retryable);
            var b := s.batch.value;
            && t.batch == Some(b.(decided := b.decided[i := true], results := t.batch.value.results))
            && t.store == s.store && t.dispatched == s.dispatched && t.live <= s.live + {b.entries[i].id}
            && (t.executed == s.executed
                || (t.executed == s.executed[b.entries[i].id := Executions(s, b.entries[i].id) + 1]
                    && (!b.resume || retryable(b.entries[i].id))))
  {
  }

  lemma {:induction false} DecideForm(s: System, i: nat, aborted: bool, retryable: string -> bool)
    requires s.batch.Some? && Shaped(s.batch.value) && i < |s.batch.value.entries| && !s.batch.value.decided[i]
    ensures var t := Step(s, Decide(i, aborted), retryable);
            var b := s.batch.value;
            && t.batch == Some(b.(decided := b.decided[i := true], results := t.batch.value.results))
            && t.store == s.store && t.dispatched == s.dispatched && t.live <= s.live + {b.entries[i].id}
            && (t.executed == s.executed
                || (t.executed == s.executed[b.entries[i].id := Executions(s, b.entries[i].id) + 1]
                    && (!b.resume || retryable(b.entries[i].id))))
  {
    hide Decided;
    DecidedForm(s, i, aborted, retryable);
  }

  lemma {:induction false} UndecidedShrinks(s: System, t: System, i: nat)
    requires s.batch.Some? && Shaped(s.batch.value) && i < |s.batch.value.entries| && !s.batch.value.decided[i]
    requires Distinct(EntryIds(s.batch.value.entries))
    requires t.batch.Some? && t.batch.value.entries == s.batch.value.entries
    requires t.batch.value.decided == s.batch.value.decided[i := true]
    ensures Undecided(s, s.batch.value.entries[i].id)
    ensures forall id :: Undecided(t, id) ==> Undecided(s, id) && id != s.batch.value.entries[i].id
  {
    var b := s.batch.value;
    forall id | Undecided(t, id) ensures Undecided(s, id) && id != b.entries[i].id {
      var j :| 0 <= j < |b.entries| && b.entries[j].id == id && !t.batch.value.decided[j];
      assert EntryIds(b.entries)[j] == id && EntryIds(b.entries)[i] == b.entries[i].id;
      assert !b.decided[j];
    }
  }

  lemma {:induction false} DecideRunsOnce(s: System, i: nat, aborted: bool, retryable: string -> bool)
    requires Sound(s) && RunsOnce(s, retryable)
    ensures RunsOnce(Step(s, Decide(i, aborted), retryable), retryable)
  {
    if s.batch.Some? && i < |s.batch.value.entries| && !s.batch.value.decided[i] {
      DecideEffect(s, i, aborted, retryable);
      hide Undecided;
      hide Step;
      hide Sound;
    }
  }

  lemma {:induction false} RunRunsOnce(s: System, actions: seq<Action>, retryable: string -> bool)
    requires Sound(s) && RunsOnce(s, retryable)
    ensures RunsOnce(Run(s, actions, retryable), retryable) && Sound(Run(s, actions, retryable))
    decreases |actions|
  {
    hide Step;
    hide Sound;
    hide RunsOnce;
    if actions != [] {
      var a := actions[0];
      StepSound(s, a, retryable);
      match a {
        case Dispatch(_) => NewBatchRunsOnce(s, a, retryable);
        case Resume => NewBatchRunsOnce(s, a, retryable);
        case Decide(i, aborted) => DecideRunsOnce(s, i, aborted, retryable);
        case _ =>
          QuietStep(s, a, retryable);
          QuieterRunsOnce(s, Step(s, a, retryable), retryable);
      }
      RunRunsOnce(Step(s, a, retryable), actions[1..], retryable);
    }
  }

  /** A tool that is neither durable nor reloadable is never started twice, and no tool is started while an
      earlier execution of the same call is still running. */
  lemma {:induction false} UnsafeToolsRunOnce(actions: seq<Action>, retryable: string -> bool, id: string, a: Action)
    ensures var s := Run(START, actions, retryable);
            && (!retryable(id) ==> Executions(s, id) <= 1)
            && (Executions(Step(s, a, retryable), id) > Executions(s, id) ==> id !in s.live)
  {
    StartSound();
    RunRunsOnce(START, actions, retryable);
    var s := Run(START, actions, retryable);
    if a.Decide? && Executions(Step(s, a, retryable), id) > Executions(s, id) {
      assert s.batch.value.entries[a.index].id == id;
      assert Undecided(s, id);
    }
  }

  // ----- A whole batch is committed -----

  /** The calls committed by a running batch stand at the end of the log with their results, and a call has a
      result only after its batch decided about it. */
  predicate BatchLogged(s: System) {
    s.batch.Some? ==>
      var b, base := s.batch.value, |s.store.log| - s.batch.value.committed;
      && Shaped(b) && b.committed <= |b.entries| && base >= 0
      && (forall i :: 0 <= i < |b.entries| && b.results[i].Some? ==> b.decided[i])
      && (forall i :: 0 <= i < b.committed ==>
            b.results[i].Some? && s.store.log[base + i] == Record(b.entries[i].id, b.results[i].value))
  }

  lemma {:induction false} CommitRecords(s: System, retryable: string -> bool) returns (winner: Result)
    requires MayCommit(s)
    ensures var t, b := Step(s, CommitNext, retryable), s.batch.value;
            && t.store.log == s.store.log + [Record(b.entries[b.committed].id, winner)]
            && t.batch == Some(b.(results := b.results[b.committed := Some(winner)], committed := b.committed + 1))
  {
    var b := s.batch.value;
    winner := Answer(s.store, b.entries[b.committed].id, b.results[b.committed].value).1;
  }

  lemma {:induction false} CommitLogged(s: System, retryable: string -> bool)
    requires BatchLogged(s) && MayCommit(s)
    ensures BatchLogged(Step(s, CommitNext, retryable))
  {
    var winner := CommitRecords(s, retryable);
    hide Step;
    var t := Step(s, CommitNext, retryable);
    assert forall k :: 0 <= k < |s.store.log| ==> t.store.log[k] == s.store.log[k];
  }

  /** The call `i` of a batch got a result, or was decided about, and nothing was committed. */
  predicate SlotChanged(s: System, t: System, i: nat) {
    && s.batch.Some? && Shaped(s.batch.value) && i < |s.batch.value.entries| && t.store == s.store
    && t.batch.Some? && Shaped(t.batch.value)
    && var b, d := s.batch.value, t.batch.value;
       && d == b.(decided := d.decided, results := d.results)
       && (d.results == b.results || (b.results[i].None? && d.results == b.results[i := d.results[i]]))
       && d.decided == b.decided[i := true]
  }

  lemma {:induction false} SlotLogged(s: System, t: System, i: nat)
    requires BatchLogged(s) && SlotChanged(s, t, i)
    ensures BatchLogged(t)
  {
  }

  lemma {:induction false} DecidedSlot(s: System, i: nat, aborted: bool, retryable: string -> bool)
    requires s.batch.Some? && Shaped(s.batch.value) && i < |s.batch.value.entries| && s.batch.value.results[i].None?
    ensures SlotChanged(s, Decided(s, s.batch.value, i, aborted, retryable), i)
  {
  }

  lemma {:induction false} DecideSlot(s: System, i: nat, aborted: bool, retryable: string -> bool)
    requires BatchLogged(s)
    ensures var t := Step(s, Decide(i, aborted), retryable); t == s || SlotChanged(s, t, i)
  {
    hide SlotChanged;
    hide Decided;
    if s.batch.Some? && i < |s.batch.value.entries| && !s.batch.value.decided[i] {
      DecidedSlot(s, i, aborted, retryable);
    }
  }

  lemma {:induction false} LiveIsDecided(s: System, i: nat, retryable: string -> bool)
    requires RunsOnce(s, retryable) && s.batch.Some? && Shaped(s.batch.value)
    requires i < |s.batch.value.entries| && s.batch.value.entries[i].id in s.live
    ensures s.batch.value.decided[i]
  {
    var id := s.batch.value.entries[i].id;
    if !s.batch.value.decided[i] { assert Undecided(s, id); }
  }

  lemma {:induction false} FinishSlot(s: System, i: nat, result: Result, retryable: string -> bool)
    requires BatchLogged(s) && RunsOnce(s, retryable)
    ensures var t := Step(s, Finish(i, result), retryable); t == s || SlotChanged(s, t, i)
  {
    if s.batch.Some? && i < |s.batch.value.entries| && s.batch.value.entries[i].id in s.live {
      LiveIsDecided(s, i, retryable);
      hide RunsOnce;
      assert s.batch.value.decided[i := true] == s.batch.value.decided;
    }
  }

  lemma {:induction false} AbortSlot(s: System, i: nat, retryable: string -> bool)
    requires BatchLogged(s)
    ensures var t := Step(s, Abort(i), retryable); t == s || SlotChanged(s, t, i)
  {
    if s.batch.Some? && i < |s.batch.value.entries| && s.batch.value.decided[i] {
      assert s.batch.value.decided[i := true] == s.batch.value.decided;
    }
  }

  lemma {:induction false} ResultLogged(s: System, a: Action, retryable: string -> bool)
    requires BatchLogged(s) && RunsOnce(s, retryable) && (a.Decide? || a.Finish? || a.Abort?)
    ensures BatchLogged(Step(s, a, retryable))
  {
    hide Step;
    hide BatchLogged;
    hide SlotChanged;
    hide RunsOnce;
    match a {
      case Decide(i, aborted) => DecideSlot(s, i, aborted, retryable);
      case Finish(i, result) => FinishSlot(s, i, result, retryable);
      case Abort(i) => AbortSlot(s, i, retryable);
    }
    var t := Step(s, a, retryable);
    if t != s { SlotLogged(s, t, a.index); }
  }

  lemma {:induction false} StepLogged(s: System, a: Action, retryable: string -> bool)
    requires BatchLogged(s) && RunsOnce(s, retryable) && StagingHolds(s)
    ensures BatchLogged(Step(s, a, retryable))
  {
    hide RunsOnce;
    if a.CommitNext? {
      if MayCommit(s) { CommitLogged(s, retryable); }
    } else if a.Decide? || a.Finish? || a.Abort? {
      ResultLogged(s, a, retryable);
    }
  }

  lemma {:induction false} RunLogged(s: System, actions: seq<Action>, retryable: string -> bool)
    requires Sound(s) && RunsOnce(s, retryable) && BatchLogged(s)
    ensures Sound(Run(s, actions, retryable)) && BatchLogged(Run(s, actions, retryable))
    decreases |actions|
  {
    hide Step;
    hide RunsOnce;
    hide BatchLogged;
    if actions != [] {
      StepLogged(s, actions[0], retryable);
      StepSound(s, actions[0], retryable);
      hide Sound;
      RunRunsOnce(s, [actions[0]], retryable);
      RunOne(s, actions[0], retryable);
      RunLogged(Step(s, actions[0], retryable), actions[1..], retryable);
    }
  }

  lemma {:induction false} RunOne(s: System, a: Action, retryable: string -> bool)
    ensures Run(s, [a], retryable) == Step(s, a, retryable)
  {
    hide Step;
    assert [a][1..] == [] && Run(Step(s, a, retryable), [], retryable) == Step(s, a, retryable);
  }

  predicate AllIn(b: Batch) { forall i :: 0 <= i < |b.results| ==> b.results[i].Some? }

  /** In whatever order results and claims arrive, also while another call is being committed: once a batch has
      nothing left to commit and none of its transactions failed, its entries are gone exactly when every result
      is in, and then the log ends with one record for each of its calls, in call order. */
  lemma {:induction false} WholeBatchIff(actions: seq<Action>, retryable: string -> bool)
    ensures var s := Run(START, actions, retryable);
            s.batch.Some? && !s.batch.value.failed && Step(s, CommitNext, retryable) == s ==>
              var b, log := s.batch.value, s.store.log;
              && (s.store.entries == [] <==> AllIn(b))
              && (AllIn(b) ==>
                    && |b.entries| == |b.results| <= |log| && RecordIds(log) == s.dispatched
                    && forall i :: 0 <= i < |b.entries| ==>
                         log[|log| - |b.entries| + i] == Record(b.entries[i].id, b.results[i].value))
  {
    StartSound();
    RunLogged(START, actions, retryable);
    hide Run;
    var s := Run(START, actions, retryable);
    if s.batch.Some? && !s.batch.value.failed && Step(s, CommitNext, retryable) == s {
      var b := s.batch.value;
      if MayCommit(s) { CommitMoves(s, retryable); }
      hide Step;
      assert |EntryIds(b.entries)[b.committed..]| == |s.store.entries|;
      assert RecordIds(s.store.log) + [] == RecordIds(s.store.log);
    }
  }

  // ----- Committing in order -----

  /** How far an in-order commit gets: up to the first call without a result. */
  function Ready(results: seq<Option<Result>>, from: nat): (n: nat)
    requires from <= |results|
    ensures from <= n <= |results| && (n < |results| ==> results[n].None?)
    ensures forall i :: from <= i < n ==> results[i].Some?
    decreases |results| - from
  {
    if from < |results| && results[from].Some? then Ready(results, from + 1) else from
  }

  /** Answer the calls from `from` before `upto`, as far as they have results. */
  function AnswerAll(store: Store, entries: seq<Entry>, results: seq<Option<Result>>, from: nat, upto: nat): Store
    decreases |entries| - from
  {
    if from >= upto || from >= |entries| || from >= |results| || results[from].None? then store
    else AnswerAll(Answer(store, entries[from].id, results[from].value).0, entries, results, from + 1, upto)
  }

  /** The commit loop shared by the calls of one batch. */
  class BatchCommitter {
    const entries: seq<Entry>
    var store: Store
    var results: seq<Option<Result>>
    var committed: nat
    var commitFailed: bool

    ghost predicate Valid()
      reads this
    {
      committed <= |entries| == |results|
    }

    constructor (entries: seq<Entry>, store: Store)
      ensures Valid() && this.entries == entries && this.store == store && committed == 0 && !commitFailed
      ensures forall i :: 0 <= i < |results| ==> results[i].None?
    {
      this.entries, this.store := entries, store;
      results, committed, commitFailed := seq(|entries|, _ => None), 0, false;
    }

    /** Commit everything that is ready, in call order. The transaction numbered `failing`, if it is reached,
        fails and closes the batch to later results. */
    method CommitReady(failing: Option<nat>)
      requires Valid()
      modifies this
      ensures Valid()
      ensures forall i :: 0 <= i < |entries| ==> (results[i].Some? <==> old(results)[i].Some?)
      ensures forall i :: committed <= i < |entries| ==> results[i] == old(results)[i]
      ensures old(commitFailed) ==> commitFailed && committed == old(committed) && store == old(store)
      ensures !commitFailed ==> committed == Ready(old(results), old(committed))
      ensures commitFailed && !old(commitFailed) ==>
                failing.Some? && old(committed) <= committed < Ready(old(results), old(committed))
      ensures store == AnswerAll(old(store), entries, old(results), old(committed), committed)
    {
      hide Answer;
      hide AnswerAll;
      ghost var given, first, before := results, committed, store;
      NothingAnswered(before, entries, given, first);
      if commitFailed {
        return;
      }
      var attempts := 0;
      while committed < |entries| && results[committed].Some?
        invariant Valid() && !commitFailed && first <= committed <= Ready(given, first)
        invariant forall i :: committed <= i < |entries| ==> results[i] == given[i]
        invariant forall i :: 0 <= i < |entries| ==> (results[i].Some? <==> given[i].Some?)
        invariant Ready(given, committed) == Ready(given, first)
        invariant store == AnswerAll(before, entries, given, first, committed)
        decreases |entries| - committed
      {
        if failing == Some(attempts) {
          commitFailed := true;
          return;
        }
        attempts := attempts + 1;
        var (next, winner) := Answer(store, entries[committed].id, results[committed].value);
        AnswerAllSnoc(before, entries, given, first, committed);
        store := next;
        results := results[committed := Some(winner)];
        committed := committed + 1;
      }
    }

    /** One call finished: record its result, then commit what is ready. */
    method Finish(index: nat, outcome: Result, failing: Option<nat>)
      requires Valid() && index < |entries|
      modifies this
      ensures Valid() && results[index].Some?
      ensures forall i :: 0 <= i < |entries| && i != index ==> (results[i].Some? <==> old(results)[i].Some?)
      ensures forall i :: committed <= i < |entries| ==> results[i] == old(results)[index := Some(outcome)][i]
      ensures old(commitFailed) ==> commitFailed && committed == old(committed) && store == old(store)
      ensures !commitFailed ==> committed == Ready(old(results)[index := Some(outcome)], old(committed))
      ensures failing.None? && !old(commitFailed) ==> !commitFailed
      ensures store == AnswerAll(old(store), entries, old(results)[index := Some(outcome)], old(committed), committed)
    {
      results := results[index := Some(outcome)];
      CommitReady(failing);
    }
  }

  lemma {:induction false} NothingAnswered(store: Store, entries: seq<Entry>, results: seq<Option<Result>>, at: nat)
    ensures AnswerAll(store, entries, results, at, at) == store
  {
  }

  lemma {:induction false} AnswerAllSnoc(store: Store, entries: seq<Entry>, results: seq<Option<Result>>, from: nat,
                                         upto: nat)
    requires from <= upto < |entries| == |results|
    requires forall i :: from <= i <= upto ==> results[i].Some?
    ensures AnswerAll(store, entries, results, from, upto + 1)
         == Answer(AnswerAll(store, entries, results, from, upto), entries[upto].id, results[upto].value).0
    decreases |entries| - from
  {
    if from < upto {
      AnswerAllSnoc(Answer(store, entries[from].id, results[from].value).0, entries, results, from + 1, upto);
    }
  }

  /** What the log says of each call: its first durable claim, or else the outcome of its execution. */
  function Answers(claims: map<string, Result>, entries: seq<Entry>, results: seq<Option<Result>>, from: nat, upto: nat)
    : seq<Record>
    requires from <= upto <= |entries| == |results|
    requires forall i :: from <= i < upto ==> results[i].Some?
  {
    seq(upto - from, i requires 0 <= i < upto - from =>
      Record(entries[from + i].id,
             if entries[from + i].id in claims then claims[entries[from + i].id] else results[from + i].value))
  }

  lemma {:induction false} AnswersStep(claims: map<string, Result>, entries: seq<Entry>, results: seq<Option<Result>>,
                                       from: nat, upto: nat)
    requires from < upto <= |entries| == |results|
    requires forall i :: from <= i < upto ==> results[i].Some?
    requires Distinct(EntryIds(entries))
    ensures var id := entries[from].id;
            Answers(claims, entries, results, from, upto)
            == [Record(id, if id in claims then claims[id] else results[from].value)]
               + Answers(claims - {id}, entries, results, from + 1, upto)
  {
    assert forall i :: 0 <= i < |entries| ==> EntryIds(entries)[i] == entries[i].id;
  }

  lemma {:induction false} AnswerAllLog(store: Store, entries: seq<Entry>, results: seq<Option<Result>>, from: nat,
                                        upto: nat)
    requires from <= upto <= |entries| == |results|
    requires forall i :: from <= i < upto ==> results[i].Some?
    requires Distinct(EntryIds(entries))
    ensures AnswerAll(store, entries, results, from, upto).log
         == store.log + Answers(store.claims, entries, results, from, upto)
    decreases upto - from
  {
    if from == upto {
      assert store.log + Answers(store.claims, entries, results, from, upto) == store.log;
    } else {
      var next := Answer(store, entries[from].id, results[from].value).0;
      AnswerAllLog(next, entries, results, from + 1, upto);
      AnswersStep(store.claims, entries, results, from, upto);
      hide Answers;
      Associative(store.log, [next.log[|store.log|]], Answers(next.claims, entries, results, from + 1, upto));
    }
  }

  /** Only the results of the calls answered matter. */
  lemma {:induction false} AnswerAllSame(store: Store, entries: seq<Entry>, a: seq<Option<Result>>,
                                         b: seq<Option<Result>>, from: nat, upto: nat)
    requires from <= upto <= |entries| == |a| == |b|
    requires forall i :: from <= i < upto ==> a[i] == b[i]
    ensures AnswerAll(store, entries, a, from, upto) == AnswerAll(store, entries, b, from, upto)
    decreases upto - from
  {
    hide Answer;
    if from < upto && a[from].Some? {
      AnswerAllSame(Answer(store, entries[from].id, a[from].value).0, entries, a, b, from + 1, upto);
    }
  }

  lemma {:induction false} AnswerAllJoin(store: Store, entries: seq<Entry>, results: seq<Option<Result>>, from: nat,
                                         mid: nat, upto: nat)
    requires from <= mid <= upto <= |entries| == |results|
    requires forall i :: from <= i < mid ==> results[i].Some?
    ensures AnswerAll(AnswerAll(store, entries, results, from, mid), entries, results, mid, upto)
         == AnswerAll(store, entries, results, from, upto)
    decreases mid - from
  {
    hide Answer;
    if from < mid {
      AnswerAllJoin(Answer(store, entries[from].id, results[from].value).0, entries, results, from + 1, mid, upto);
    }
  }

  predicate Finishes(outcomes: seq<(nat, Result)>, i: nat) {
    exists k :: 0 <= k < |outcomes| && outcomes[k].0 == i
  }

  /** Every call finishes, and once. */
  predicate AllFinish(outcomes: seq<(nat, Result)>, count: nat) {
    && (forall k :: 0 <= k < |outcomes| ==> outcomes[k].0 < count)
    && (forall k, l :: 0 <= k < l < |outcomes| ==> outcomes[k].0 != outcomes[l].0)
    && forall i :: 0 <= i < count ==> Finishes(outcomes, i)
  }

  function OutcomeOf(outcomes: seq<(nat, Result)>, i: nat): (r: Result)
    requires Finishes(outcomes, i)
    ensures exists k :: 0 <= k < |outcomes| && outcomes[k] == (i, r)
  {
    if outcomes[0].0 == i then outcomes[0].1
    else
      assert forall k :: 1 <= k < |outcomes| ==> outcomes[1..][k - 1] == outcomes[k];
      assert Finishes(outcomes[1..], i) by { RestFinishes(outcomes, i); }
      var r := OutcomeOf(outcomes[1..], i);
      assert exists k :: 0 <= k < |outcomes[1..]| && outcomes[1..][k] == (i, r);
      r
  }

  lemma {:induction false} RestFinishes(outcomes: seq<(nat, Result)>, i: nat)
    requires Finishes(outcomes, i) && outcomes[0].0 != i
    ensures Finishes(outcomes[1..], i)
  {
    var k :| 0 <= k < |outcomes| && outcomes[k].0 == i;
    assert outcomes[1..][k - 1] == outcomes[k];
  }

  lemma {:induction false} OutcomeAt(outcomes: seq<(nat, Result)>, count: nat, k: nat)
    requires AllFinish(outcomes, count) && k < |outcomes|
    ensures OutcomeOf(outcomes, outcomes[k].0) == outcomes[k].1
  {
    var r := OutcomeOf(outcomes, outcomes[k].0);
    var l :| 0 <= l < |outcomes| && outcomes[l] == (outcomes[k].0, r);
    assert l == k;
  }

  function Outcomes(outcomes: seq<(nat, Result)>, count: nat): seq<Option<Result>>
    requires AllFinish(outcomes, count)
  {
    seq(count, i requires 0 <= i < count => Some(OutcomeOf(outcomes, i)))
  }

  /** Whatever order the calls finish in, without a failure the last one to finish commits the whole batch,
      and the log holds one record for each call, in call order: its durable claim if it has one, and the
      outcome of its own execution if not. */
  method CommitAll(entries: seq<Entry>, store: Store, outcomes: seq<(nat, Result)>) returns (after: Store)
    requires Distinct(EntryIds(entries)) && AllFinish(outcomes, |entries|)
    ensures after.log == store.log + Answers(store.claims, entries, Outcomes(outcomes, |entries|), 0, |entries|)
  {
    hide AnswerAll;
    hide Answers;
    hide OutcomeOf;
    ghost var final := Outcomes(outcomes, |entries|);
    var committer := new BatchCommitter(entries, store);
    NothingAnswered(store, entries, final, 0);
    for n := 0 to |outcomes|
      invariant committer.Valid() && !committer.commitFailed && committer.entries == entries && fresh(committer)
      invariant forall k :: 0 <= k < n ==> committer.results[outcomes[k].0].Some?
      invariant committer.committed < |entries| ==> committer.results[committer.committed].None?
      invariant forall i :: committer.committed <= i < |entries| && committer.results[i].Some? ==>
                  committer.results[i] == final[i]
      invariant committer.store == AnswerAll(store, entries, final, 0, committer.committed)
    {
      ghost var before, was, results := committer.committed, committer.store, committer.results;
      var (index, outcome) := outcomes[n];
      OutcomeAt(outcomes, |entries|, n);
      committer.Finish(index, outcome, None);
      ghost var given := results[index := Some(outcome)];
      assert forall i :: before <= i < committer.committed ==> given[i] == final[i];
      AnswerAllSame(was, entries, given, final, before, committer.committed);
      AnswerAllJoin(store, entries, final, 0, before, committer.committed);
    }
    forall i | 0 <= i < |entries| ensures committer.results[i].Some? {
      assert Finishes(outcomes, i);
    }
    AnswerAllLog(store, entries, final, 0, |entries|);
    return committer.store;
  }

  // ----- Entry keys -----

  /** Entry keys sort in batch order up to a million calls, however their IDs compare. */
  lemma {:induction false} EntryKeysKeepOrder(i: nat, j: nat, a: Key, b: Key)
    requires i < j < 1000000
    ensures Less(EntryKey(i, a), EntryKey(j, b))
  {
    assert QueueKeys.Pow10(6) == 1000000 by {
      assert QueueKeys.Pow10(6) == 10 * 10 * QueueKeys.Pow10(4);
      assert QueueKeys.Pow10(4) == 10 * 10 * QueueKeys.Pow10(2) && QueueKeys.Pow10(2) == 10 * 10 * QueueKeys.Pow10(0);
    }
    ShortDigits(i);
    ShortDigits(j);
    QueueKeys.FixedLess(i, j, 6);
    QueueKeys.LessExtends(QueueKeys.Padded(i, 6), QueueKeys.Padded(j, 6), [QueueKeys.DOT] + a, [QueueKeys.DOT] + b);
  }

  function EntryKey(index: nat, id: Key): Key { QueueKeys.Padded(index, 6) + ([QueueKeys.DOT] + id) }

  lemma {:induction false} ShortDigits(n: nat)
    requires n < 1000000 && QueueKeys.Pow10(6) == 1000000
    ensures QueueKeys.Digits(n) <= 6
  {
    QueueKeys.DigitsBound(n);
    if QueueKeys.Digits(n) > 6 { QueueKeys.PowGrows(6, QueueKeys.Digits(n) - 1); }
  }
}
