/** Where the results of a tool batch come from, and which calls are started again after a restart (AgentBase.ts). */
module ToolProvenance {
  import opened Basics
  import opened ToolBatch

  type Outcome = ToolBatch.Result

  // ----- What happens to a call when its batch decides about it -----

  /** An execution of the call was started: one more, and it is running. */
  predicate Started(s: System, t: System, id: string) {
    Executions(t, id) == Executions(s, id) + 1 && id in t.live
  }

  predicate NotStarted(s: System, t: System) { t.executed == s.executed && t.live == s.live }

  predicate Pends(s: System, i: nat) {
    && s.batch.Some? && Shaped(s.batch.value) && i < |s.batch.value.entries|
    && !s.batch.value.decided[i]
  }

  /** The call was answered instead of started. */
  predicate Answered(s: System, t: System, i: nat, r: Outcome)
    requires Pends(s, i)
  {
    NotStarted(s, t) && t.batch == Some(s.batch.value.(decided := s.batch.value.decided[i := true],
                                                       results := s.batch.value.results[i := Some(r)]))
  }

  /** A call without a stored result is started exactly when it was not aborted and its batch is not a resumed
      one or its tool may be retried. One that may not is answered as interrupted, one that has a stored result
      with that. */
  lemma {:induction false} StartsIff(actions: seq<Action>, retryable: string -> bool, i: nat, aborted: bool)
    ensures var s := Run(START, actions, retryable);
            var t := Step(s, Decide(i, aborted), retryable);
            Pends(s, i) ==>
              var b, e := s.batch.value, s.batch.value.entries[i];
              && (Started(s, t, e.id) <==> e.settled.None? && !aborted && (!b.resume || retryable(e.id)))
              && (Started(s, t, e.id) ==> t.batch == Some(b.(decided := b.decided[i := true])) && t.store == s.store)
              && (e.settled.Some? ==> Answered(s, t, i, e.settled.value))
              && (e.settled.None? && b.resume && !retryable(e.id) ==> Answered(s, t, i, INTERRUPTED))
              && (e.settled.None? && aborted && (!b.resume || retryable(e.id)) ==> Answered(s, t, i, ABORTED))
  {
    var s := Run(START, actions, retryable);
    hide Run;
    if Pends(s, i) {
      DecidedStarts(s, i, aborted, retryable);
      hide Decided;
    }
  }

  lemma {:induction false} DecidedStarts(s: System, i: nat, aborted: bool, retryable: string -> bool)
    requires Pends(s, i)
    ensures var t := Decided(s, s.batch.value, i, aborted, retryable);
            var b, e := s.batch.value, s.batch.value.entries[i];
            && (Started(s, t, e.id) <==> e.settled.None? && !aborted && (!b.resume || retryable(e.id)))
            && (Started(s, t, e.id) ==> t.batch == Some(b.(decided := b.decided[i := true])) && t.store == s.store)
            && (e.settled.Some? ==> Answered(s, t, i, e.settled.value))
            && (e.settled.None? && b.resume && !retryable(e.id) ==> Answered(s, t, i, INTERRUPTED))
            && (e.settled.None? && aborted && (!b.resume || retryable(e.id)) ==> Answered(s, t, i, ABORTED))
  {
  }

  /** After a crash the pending calls are resumed, and one without a stored result is started again exactly when
      its tool may be retried. */
  lemma {:induction false} RestartRetriesIff(actions: seq<Action>, retryable: string -> bool, i: nat)
    ensures var s := Run(START, actions, retryable);
            i < |s.store.entries| ==>
              var up := Step(Step(s, Crash, retryable), Resume, retryable);
              var t := Step(up, Decide(i, false), retryable);
              var e := s.store.entries[i];
              && up.batch == Some(NewBatch(s.store.entries, true)) && up.store == s.store && up.executed == s.executed
              && (Started(up, t, e.id) <==> e.settled.None? && retryable(e.id))
  {
    var s := Run(START, actions, retryable);
    if i < |s.store.entries| {
      RunConcat(START, actions, [Crash] + [Resume], retryable);
      RunTwo(s, Crash, Resume, retryable);
      StartsIff(actions + ([Crash] + [Resume]), retryable, i, false);
      hide Run;
    }
  }

  lemma {:induction false} RunConcat(s: System, a: seq<Action>, b: seq<Action>, retryable: string -> bool)
    ensures Run(s, a + b, retryable) == Run(Run(s, a, retryable), b, retryable)
    decreases |a|
  {
    hide Step;
    if a == [] {
      assert a + b == b;
    } else {
      assert (a + b)[0] == a[0] && (a + b)[1..] == a[1..] + b;
      RunConcat(Step(s, a[0], retryable), a[1..], b, retryable);
    }
  }

  lemma {:induction false} RunTwo(s: System, a: Action, b: Action, retryable: string -> bool)
    ensures Run(s, [a] + [b], retryable) == Step(Step(s, a, retryable), b, retryable)
  {
    hide Step;
    RunOne(Step(s, a, retryable), b, retryable);
    assert ([a] + [b])[1..] == [b];
  }

  // ----- A claimed result is stored with its call -----

  /** A pending call whose result a tool committed carries a result. */
  predicate ClaimStored(s: System) {
    forall i :: 0 <= i < |s.store.entries| && s.store.entries[i].id in s.chosen ==> s.store.entries[i].settled.Some?
  }

  lemma {:induction false} ToolCommitStored(s: System, id: string, result: Outcome, retryable: string -> bool)
    requires Sound(s) && ClaimStored(s)
    ensures ClaimStored(Step(s, ToolCommits(id, result), retryable))
  {
    var t := Step(s, ToolCommits(id, result), retryable);
    if t != s {
      PendingOnce(s);
      SettleLength(s.store.entries, id, result);
      forall i | 0 <= i < |t.store.entries| && t.store.entries[i].id in t.chosen ensures t.store.entries[i].settled.Some? {
        SettleFirst(s.store.entries, id, result, i);
      }
    }
  }

  lemma {:induction false} PendingOnce(s: System)
    requires Accounted(s)
    ensures Distinct(EntryIds(s.store.entries))
  {
    var records, ids := RecordIds(s.store.log), EntryIds(s.store.entries);
    forall i, j | 0 <= i < j < |ids| ensures ids[i] != ids[j] {
      assert s.dispatched[|records| + i] == ids[i] && s.dispatched[|records| + j] == ids[j];
    }
  }

  lemma {:induction false} SettleFirst(entries: seq<Entry>, id: string, r: Outcome, i: nat)
    requires i < |entries| && Distinct(EntryIds(entries))
    ensures var next := Settle(entries, id, r);
            && |next| == |entries| && next[i].id == entries[i].id
            && next[i].settled == if entries[i].id == id && entries[i].settled.None? then Some(r) else entries[i].settled
  {
    SettleLength(entries, id, r);
    var ids := EntryIds(entries);
    assert forall k :: 0 <= k < |entries| ==> ids[k] == entries[k].id;
    if entries[0].id != id && i > 0 {
      var rest := EntryIds(entries[1..]);
      assert forall k :: 0 <= k < |rest| ==> rest[k] == ids[k + 1];
      SettleFirst(entries[1..], id, r, i - 1);
    } else if i > 0 {
      assert ids[0] != ids[i];
    }
  }

  lemma {:induction false} StepStored(s: System, a: Action, retryable: string -> bool)
    requires Sound(s) && ClaimStored(s)
    ensures ClaimStored(Step(s, a, retryable))
  {
    var t := Step(s, a, retryable);
    match a
    case Dispatch(ids) => if t != s { NewAreUnclaimed(s, ids); }
    case Stage(ids, _) =>
    case ToolCommits(id, result) => ToolCommitStored(s, id, result, retryable);
    case CommitNext =>
      if MayCommit(s) {
        CommitMoves(s, retryable);
        ChosenStays(s, a, retryable);
        assert forall i :: 0 <= i < |t.store.entries| ==> t.store.entries[i] == s.store.entries[i + 1];
      }
    case _ =>
  }

  lemma {:induction false} NewAreUnclaimed(s: System, ids: seq<string>)
    requires Sound(s) && NewCalls(s, ids)
    ensures forall i :: 0 <= i < |Fresh(ids)| ==> Fresh(ids)[i].id !in s.chosen
  {
    ApartWhenDistinct(s.dispatched, ids);
  }

  lemma {:induction false} RunStored(s: System, actions: seq<Action>, retryable: string -> bool)
    requires Sound(s) && ClaimStored(s)
    ensures Sound(Run(s, actions, retryable)) && ClaimStored(Run(s, actions, retryable))
    decreases |actions|
  {
    hide Step;
    hide Sound;
    hide ClaimStored;
    if actions != [] {
      StepStored(s, actions[0], retryable);
      StepSound(s, actions[0], retryable);
      RunStored(Step(s, actions[0], retryable), actions[1..], retryable);
    }
  }

  /** A call whose result a tool committed durably before a crash is answered with it after the restart, and not
      started again, retryable or not. */
  lemma {:induction false} ClaimedIsNotRestarted(actions: seq<Action>, retryable: string -> bool, i: nat)
    ensures var s := Run(START, actions, retryable);
            i < |s.store.entries| && s.store.entries[i].id in s.chosen ==>
              var up := Step(Step(s, Crash, retryable), Resume, retryable);
              var t := Step(up, Decide(i, false), retryable);
              Pends(up, i) && NotStarted(up, t) && t.batch.Some? && i < |t.batch.value.results|
              && t.batch.value.results[i].Some?
  {
    StartSound();
    RunStored(START, actions, retryable);
    RestartRetriesIff(actions, retryable, i);
    hide Run;
    var s := Run(START, actions, retryable);
    if i < |s.store.entries| && s.store.entries[i].id in s.chosen {
      var up := Step(Step(s, Crash, retryable), Resume, retryable);
      hide Step;
      assert Pends(up, i);
      DecidedIs(up, i, retryable);
      DecidedStarts(up, i, false, retryable);
    }
  }

  lemma {:induction false} DecidedIs(s: System, i: nat, retryable: string -> bool)
    requires Pends(s, i)
    ensures Step(s, Decide(i, false), retryable) == Decided(s, s.batch.value, i, false, retryable)
  {
  }

  // ----- Where results come from -----

  /** What happened to calls: results their executions returned, those aborted, those a resumed batch found
      unfit to be retried, and the reasons given for calls that were never dispatched. */
  datatype History = History(
    returned: set<(string, Outcome)>,
    aborted: set<string>,
    interrupted: set<string>,
    reasons: map<string, Outcome>)

  const NOTHING := History({}, {}, {}, map[])

  function CallOf(s: System, i: nat): Option<string> {
    if s.batch.Some? && i < |s.batch.value.entries| then Some(s.batch.value.entries[i].id) else None
  }

  function Note(h: History, s: System, a: Action, retryable: string -> bool): History {
    match a
    case Stage(ids, reason) =>
      if s.batch.Some? || s.staging || s.store.entries != [] || !NewCalls(s, ids) then h
      else h.(reasons := h.reasons + map id | id in ids :: reason)
    case Finish(i, result) =>
      if CallOf(s, i).Some? && CallOf(s, i).value in s.live
      then h.(returned := h.returned + {(CallOf(s, i).value, result)}) else h
    case Abort(i) => if CallOf(s, i).Some? then h.(aborted := h.aborted + {CallOf(s, i).value}) else h
    case Decide(i, aborted) =>
      if CallOf(s, i).None? then h
      else
        var id := CallOf(s, i).value;
        var g := if aborted then h.(aborted := h.aborted + {id}) else h;
        if s.batch.value.resume && !retryable(id) then g.(interrupted := g.interrupted + {id}) else g
    case _ => h
  }

  function Notes(h: History, s: System, actions: seq<Action>, retryable: string -> bool): History
    decreases |actions|
  {
    if actions == [] then h
    else Notes(Note(h, s, actions[0], retryable), Step(s, actions[0], retryable), actions[1..], retryable)
  }

  /** Something that happened explains the result of the call. */
  predicate Sourced(h: History, s: System, id: string, r: Outcome) {
    || (id in s.chosen && s.chosen[id] == r)
    || (id in h.reasons && h.reasons[id] == r)
    || (id !in h.reasons
        && ((id, r) in h.returned || (r == ABORTED && id in h.aborted) || (r == INTERRUPTED && id in h.interrupted)))
  }

  /** A stored result is the durable claim of the call or the reason it was never dispatched. */
  predicate Stored(h: History, s: System, e: Entry) {
    && (e.settled.Some? ==>
          || (e.id in s.chosen && s.chosen[e.id] == e.settled.value)
          || (e.id in h.reasons && h.reasons[e.id] == e.settled.value))
    && (e.id in h.reasons ==> e.settled == Some(h.reasons[e.id]))
  }

  ghost predicate Explained(h: History, s: System) {
    && (forall k :: 0 <= k < |s.store.log| ==> Sourced(h, s, s.store.log[k].id, s.store.log[k].result))
    && (forall i :: 0 <= i < |s.store.entries| ==> Stored(h, s, s.store.entries[i]))
    && (forall id :: id in h.reasons ==> id in s.dispatched && id !in s.chosen && id !in s.live)
    && (s.staging ==> forall i :: 0 <= i < |s.store.entries| ==> s.store.entries[i].id in h.reasons)
    && (s.batch.Some? ==>
          var b := s.batch.value;
          Shaped(b)
          && forall i :: 0 <= i < |b.entries| ==>
               Stored(h, s, b.entries[i])
               && (b.results[i].Some? ==> Sourced(h, s, b.entries[i].id, b.results[i].value))
               && (b.entries[i].id in h.reasons && b.decided[i] ==> b.results[i].Some?))
  }

  /** More may have happened, to calls that had no reason before. */
  predicate Later(h: History, s: System, g: History, t: System) {
    && h.returned <= g.returned && h.aborted <= g.aborted && h.interrupted <= g.interrupted
    && (forall id :: id in s.chosen ==> id in t.chosen && t.chosen[id] == s.chosen[id])
    && (forall id :: id in h.reasons ==> id in g.reasons && g.reasons[id] == h.reasons[id])
    && (forall id :: id in g.reasons && id !in h.reasons ==> id !in s.dispatched)
  }

  lemma {:induction false} SourcedLater(h: History, s: System, g: History, t: System, id: string, r: Outcome)
    requires Sourced(h, s, id, r) && Later(h, s, g, t) && id in s.dispatched
    ensures Sourced(g, t, id, r)
  {
  }

  lemma {:induction false} StoredLater(h: History, s: System, g: History, t: System, e: Entry)
    requires Stored(h, s, e) && Later(h, s, g, t) && e.id in s.dispatched
    ensures Stored(g, t, e)
  {
  }

  /** Everything recorded, pending or in the batch was dispatched. */
  lemma {:induction false} AllDispatched(s: System)
    requires Sound(s)
    ensures forall k :: 0 <= k < |s.store.log| ==> s.store.log[k].id in s.dispatched
    ensures forall i :: 0 <= i < |s.store.entries| ==> s.store.entries[i].id in s.dispatched
    ensures s.batch.Some? ==>
              forall i :: 0 <= i < |s.batch.value.entries| ==> s.batch.value.entries[i].id in s.dispatched
  {
    var log, ids := RecordIds(s.store.log), EntryIds(s.store.entries);
    assert forall k :: 0 <= k < |log| ==> s.dispatched[k] == log[k] == s.store.log[k].id;
    assert forall i :: 0 <= i < |ids| ==> s.dispatched[|log| + i] == ids[i] == s.store.entries[i].id;
    if s.batch.Some? {
      var b := s.batch.value;
      assert forall i :: 0 <= i < |b.entries| ==> EntryIds(b.entries)[i] == b.entries[i].id;
    }
  }

  /** What is known stays explained. */
  lemma {:induction false} ExplainedLater(h: History, s: System, g: History, t: System)
    requires Sound(s) && Explained(h, s) && Later(h, s, g, t)
    ensures forall k :: 0 <= k < |s.store.log| ==> Sourced(g, t, s.store.log[k].id, s.store.log[k].result)
    ensures forall i :: 0 <= i < |s.store.entries| ==> Stored(g, t, s.store.entries[i])
    ensures s.batch.Some? ==>
              var b := s.batch.value;
              Shaped(b)
              && forall i :: 0 <= i < |b.entries| ==>
                   Stored(g, t, b.entries[i])
                   && (b.results[i].Some? ==> Sourced(g, t, b.entries[i].id, b.results[i].value))
                   && (b.entries[i].id in g.reasons && b.decided[i] ==> b.results[i].Some?)
  {
    hide Sound;
    hide Sourced;
    hide Stored;
    AllDispatched(s);
    forall k | 0 <= k < |s.store.log| ensures Sourced(g, t, s.store.log[k].id, s.store.log[k].result) {
      SourcedLater(h, s, g, t, s.store.log[k].id, s.store.log[k].result);
    }
    forall i | 0 <= i < |s.store.entries| ensures Stored(g, t, s.store.entries[i]) {
      StoredLater(h, s, g, t, s.store.entries[i]);
    }
    if s.batch.Some? {
      var b := s.batch.value;
      forall i | 0 <= i < |b.entries|
        ensures Stored(g, t, b.entries[i])
        ensures b.results[i].Some? ==> Sourced(g, t, b.entries[i].id, b.results[i].value)
        ensures b.entries[i].id in g.reasons && b.decided[i] ==> b.results[i].Some?
      {
        StoredLater(h, s, g, t, b.entries[i]);
        if b.results[i].Some? { SourcedLater(h, s, g, t, b.entries[i].id, b.results[i].value); }
      }
    }
  }

  lemma {:induction false} ChosenStays(s: System, a: Action, retryable: string -> bool)
    ensures forall id :: id in s.chosen ==>
              id in Step(s, a, retryable).chosen && Step(s, a, retryable).chosen[id] == s.chosen[id]
  {
  }

  lemma {:induction false} NoteIsLater(h: History, s: System, a: Action, retryable: string -> bool)
    requires Sound(s) && Explained(h, s)
    ensures Later(h, s, Note(h, s, a, retryable), Step(s, a, retryable))
  {
    ChosenStays(s, a, retryable);
    hide Step;
    if a.Stage? && NewCalls(s, a.ids) { ApartWhenDistinct(s.dispatched, a.ids); }
  }

  // ----- Step by step -----

  lemma {:induction false} StagedExplained(h: History, s: System, ids: seq<string>, reason: Outcome,
                                           retryable: string -> bool)
    requires Sound(s) && Explained(h, s)
    ensures Explained(Note(h, s, Stage(ids, reason), retryable), Step(s, Stage(ids, reason), retryable))
  {
    var t, g := Step(s, Stage(ids, reason), retryable), Note(h, s, Stage(ids, reason), retryable);
    if t != s {
      NoteIsLater(h, s, Stage(ids, reason), retryable);
      ExplainedLater(h, s, g, t);
      ApartWhenDistinct(s.dispatched, ids);
      assert t.store.entries == Staged(ids, reason);
      assert forall i :: 0 <= i < |ids| ==> t.store.entries[i].id == ids[i] && ids[i] in ids;
      assert forall id :: id in s.dispatched ==> id in t.dispatched;
    }
  }

  lemma {:induction false} DispatchExplained(h: History, s: System, ids: seq<string>, retryable: string -> bool)
    requires Sound(s) && Explained(h, s)
    ensures Explained(h, Step(s, Dispatch(ids), retryable))
  {
    var t := Step(s, Dispatch(ids), retryable);
    if t != s {
      ExplainedLater(h, s, h, t);
      ApartWhenDistinct(s.dispatched, ids);
      assert t.store.entries == Fresh(ids);
      assert forall i :: 0 <= i < |ids| ==> t.store.entries[i].id == ids[i] && ids[i] in ids;
    }
  }

  lemma {:induction false} SettledExplained(h: History, s: System, retryable: string -> bool)
    requires Sound(s) && Explained(h, s)
    ensures Explained(h, Step(s, SettleStaged, retryable))
  {
    var t := Step(s, SettleStaged, retryable);
    if s.staging {
      ExplainedLater(h, s, h, t);
      var n := |s.store.log|;
      forall k | n <= k < |t.store.log| ensures Sourced(h, t, t.store.log[k].id, t.store.log[k].result) {
        assert Stored(h, t, s.store.entries[k - n]);
        assert t.store.log[k] == SettledRecords(s.store.entries)[k - n];
      }
    }
  }

  lemma {:induction false} ResumeExplained(h: History, s: System, retryable: string -> bool)
    requires Sound(s) && Explained(h, s)
    ensures Explained(h, Step(s, Resume, retryable))
  {
    ExplainedLater(h, s, h, Step(s, Resume, retryable));
  }

  lemma {:induction false} ToolCommitExplained(h: History, s: System, id: string, result: Outcome,
                                               retryable: string -> bool)
    requires Sound(s) && Explained(h, s)
    ensures Explained(h, Step(s, ToolCommits(id, result), retryable))
  {
    var t := Step(s, ToolCommits(id, result), retryable);
    if t != s {
      NoteIsLater(h, s, ToolCommits(id, result), retryable);
      ExplainedLater(h, s, h, t);
      assert id !in s.chosen;
      SettleLength(s.store.entries, id, result);
      forall i | 0 <= i < |t.store.entries| ensures Stored(h, t, t.store.entries[i]) {
        SettleAt(s.store.entries, id, result, i);
      }
    }
  }

  lemma {:induction false} SettleAt(entries: seq<Entry>, id: string, r: Outcome, i: nat)
    requires i < |entries|
    ensures var next := Settle(entries, id, r);
            && |next| == |entries| && next[i].id == entries[i].id
            && (next[i] == entries[i] || (entries[i].id == id && next[i].settled == Some(r) && entries[i].settled.None?))
  {
    if entries[0].id != id && i > 0 { SettleAt(entries[1..], id, r, i - 1); }
    if entries[0].id != id { SettleKeepsIds(entries[1..], id, r); SettleLength(entries[1..], id, r); }
  }

  lemma {:induction false} SettleLength(entries: seq<Entry>, id: string, r: Outcome)
    ensures |Settle(entries, id, r)| == |entries|
  {
    if entries != [] && entries[0].id != id { SettleLength(entries[1..], id, r); }
  }

  lemma {:induction false} CommitExplained(h: History, s: System, retryable: string -> bool)
    requires Sound(s) && Explained(h, s)
    ensures Explained(h, Step(s, CommitNext, retryable))
  {
    var t := Step(s, CommitNext, retryable);
    if MayCommit(s) {
      CommitMoves(s, retryable);
      CommitWinner(s, retryable);
      hide Step;
      hide Answer;
      ExplainedLater(h, s, h, t);
      forall k | 0 <= k < |t.store.log| ensures Sourced(h, t, t.store.log[k].id, t.store.log[k].result) {
        if k < |s.store.log| { assert t.store.log[k] == s.store.log[k]; }
      }
      forall i | 0 <= i < |t.store.entries| ensures Stored(h, t, t.store.entries[i]) {
        assert t.store.entries[i] == s.store.entries[i + 1];
      }
    }
  }

  /** What is recorded is the first durable claim of the call, or else the result it has. */
  lemma {:induction false} CommitWinner(s: System, retryable: string -> bool)
    requires Sound(s) && MayCommit(s)
    ensures var t, b := Step(s, CommitNext, retryable), s.batch.value;
            var id := b.entries[b.committed].id;
            var winner := if id in s.chosen then s.chosen[id] else b.results[b.committed].value;
            && t.store.log == s.store.log + [Record(id, winner)] && t.chosen == s.chosen && t.live == s.live
            && t.dispatched == s.dispatched && t.staging == s.staging
            && t.batch == Some(b.(results := b.results[b.committed := Some(winner)], committed := b.committed + 1))
  {
    var b := s.batch.value;
    assert EntryIds(b.entries)[b.committed..][0] == b.entries[b.committed].id;
    assert EntryIds(s.store.entries)[0] in EntryIds(s.store.entries);
  }

  /** The call `i` got this result, if it had none, and nothing else changed but what is running. */
  lemma {:induction false} SlotExplained(h: History, s: System, g: History, t: System, i: nat)
    requires Sound(s) && Explained(h, s) && Later(h, s, g, t) && SlotChanged(s, t, i)
    requires g.reasons == h.reasons && t.chosen == s.chosen && t.dispatched == s.dispatched && t.staging == s.staging
    requires forall id :: id in t.live && id in h.reasons ==> id in s.live
    requires var e, r := s.batch.value.entries[i], t.batch.value.results[i];
             && (r.Some? ==> Sourced(g, t, e.id, r.value)) && (e.id in h.reasons ==> r.Some?)
    ensures Explained(g, t)
  {
    ExplainedLater(h, s, g, t);
    hide Sourced;
    hide Stored;
  }

  lemma {:induction false} DecideExplained(h: History, s: System, i: nat, aborted: bool, retryable: string -> bool)
    requires Sound(s) && Explained(h, s) && BatchLogged(s)
    ensures Explained(Note(h, s, Decide(i, aborted), retryable), Step(s, Decide(i, aborted), retryable))
  {
    var t, g := Step(s, Decide(i, aborted), retryable), Note(h, s, Decide(i, aborted), retryable);
    NoteIsLater(h, s, Decide(i, aborted), retryable);
    DecideSlot(s, i, aborted, retryable);
    if t == s {
      SameExplained(h, s, g);
    } else {
      DecidedStarts(s, i, aborted, retryable);
      DecidedKeeps(s, i, aborted, retryable);
      var e := s.batch.value.entries[i];
      assert Stored(h, s, e);
      hide Decided;
      SlotExplained(h, s, g, t, i);
    }
  }

  lemma {:induction false} DecidedKeeps(s: System, i: nat, aborted: bool, retryable: string -> bool)
    requires Pends(s, i)
    ensures var t := Decided(s, s.batch.value, i, aborted, retryable);
            var e := s.batch.value.entries[i];
            && t.chosen == s.chosen && t.dispatched == s.dispatched && t.staging == s.staging
            && t.live <= s.live + {e.id} && (e.settled.Some? ==> t.live == s.live)
  {
  }

  lemma {:induction false} SameExplained(h: History, s: System, g: History)
    requires Sound(s) && Explained(h, s) && Later(h, s, g, s) && g.reasons == h.reasons
    ensures Explained(g, s)
  {
    ExplainedLater(h, s, g, s);
  }

  lemma {:induction false} FinishExplained(h: History, s: System, i: nat, result: Outcome, retryable: string -> bool)
    requires Sound(s) && Explained(h, s) && BatchLogged(s) && RunsOnce(s, retryable)
    ensures Explained(Note(h, s, Finish(i, result), retryable), Step(s, Finish(i, result), retryable))
  {
    var t, g := Step(s, Finish(i, result), retryable), Note(h, s, Finish(i, result), retryable);
    NoteIsLater(h, s, Finish(i, result), retryable);
    FinishSlot(s, i, result, retryable);
    hide RunsOnce;
    if t == s {
      SameExplained(h, s, g);
    } else {
      var id := s.batch.value.entries[i].id;
      assert id in s.live && id !in h.reasons;
      SlotExplained(h, s, g, t, i);
    }
  }

  lemma {:induction false} AbortExplained(h: History, s: System, i: nat, retryable: string -> bool)
    requires Sound(s) && Explained(h, s) && BatchLogged(s)
    ensures Explained(Note(h, s, Abort(i), retryable), Step(s, Abort(i), retryable))
  {
    var t, g := Step(s, Abort(i), retryable), Note(h, s, Abort(i), retryable);
    NoteIsLater(h, s, Abort(i), retryable);
    AbortSlot(s, i, retryable);
    if t == s {
      SameExplained(h, s, g);
    } else {
      assert s.batch.value.entries[i].id !in h.reasons;
      SlotExplained(h, s, g, t, i);
    }
  }

  lemma {:induction false} OtherExplained(h: History, s: System, a: Action, retryable: string -> bool)
    requires Sound(s) && Explained(h, s)
    requires a.ExecutionEnds? || a.CommitFails? || a.BatchEnds? || a.Crash?
    ensures Explained(h, Step(s, a, retryable))
  {
    ExplainedLater(h, s, h, Step(s, a, retryable));
  }

  lemma {:induction false} StepExplained(h: History, s: System, a: Action, retryable: string -> bool)
    requires Sound(s) && Explained(h, s) && BatchLogged(s) && RunsOnce(s, retryable)
    ensures Explained(Note(h, s, a, retryable), Step(s, a, retryable))
  {
    hide Step;
    hide Sound;
    hide Explained;
    hide BatchLogged;
    hide RunsOnce;
    match a
    case Dispatch(ids) => DispatchExplained(h, s, ids, retryable);
    case Stage(ids, reason) => StagedExplained(h, s, ids, reason, retryable);
    case SettleStaged => SettledExplained(h, s, retryable);
    case Resume => ResumeExplained(h, s, retryable);
    case Decide(i, aborted) => DecideExplained(h, s, i, aborted, retryable);
    case ToolCommits(id, result) => ToolCommitExplained(h, s, id, result, retryable);
    case Finish(i, result) => FinishExplained(h, s, i, result, retryable);
    case Abort(i) => AbortExplained(h, s, i, retryable);
    case CommitNext => CommitExplained(h, s, retryable);
    case _ => OtherExplained(h, s, a, retryable);
  }

  lemma {:induction false} RunExplained(h: History, s: System, actions: seq<Action>, retryable: string -> bool)
    requires Sound(s) && Explained(h, s) && BatchLogged(s) && RunsOnce(s, retryable)
    ensures Sound(Run(s, actions, retryable)) && Explained(Notes(h, s, actions, retryable), Run(s, actions, retryable))
    ensures BatchLogged(Run(s, actions, retryable))
    decreases |actions|
  {
    hide Step;
    hide Sound;
    hide Explained;
    hide BatchLogged;
    hide RunsOnce;
    if actions != [] {
      StepExplained(h, s, actions[0], retryable);
      KeepsAll(s, actions[0], retryable);
      RunExplained(Note(h, s, actions[0], retryable), Step(s, actions[0], retryable), actions[1..], retryable);
    }
  }

  lemma {:induction false} KeepsAll(s: System, a: Action, retryable: string -> bool)
    requires Sound(s) && BatchLogged(s) && RunsOnce(s, retryable)
    ensures var t := Step(s, a, retryable); Sound(t) && BatchLogged(t) && RunsOnce(t, retryable)
  {
    hide Step;
    hide BatchLogged;
    hide RunsOnce;
    StepLogged(s, a, retryable);
    hide Sound;
    RunRunsOnce(s, [a], retryable);
    RunOne(s, a, retryable);
  }

  lemma {:induction false} StartExplained(retryable: string -> bool)
    ensures Sound(START) && Explained(NOTHING, START) && BatchLogged(START) && RunsOnce(START, retryable)
  {
  }

  /** Every result in the log is, over any crashes and restarts: the first durable claim of its call, or the
      reason it was never dispatched, or else what its execution returned, the abort result of a call that was
      aborted, or the interrupted result of one that may not be retried and that a resumed batch held. */
  lemma {:induction false} ResultsHaveSources(actions: seq<Action>, retryable: string -> bool, k: nat)
    ensures var s, h := Run(START, actions, retryable), Notes(NOTHING, START, actions, retryable);
            k < |s.store.log| ==>
              var (id, r) := (s.store.log[k].id, s.store.log[k].result);
              if id in s.chosen then r == s.chosen[id]
              else if id in h.reasons then r == h.reasons[id]
              else (id, r) in h.returned || (r == ABORTED && id in h.aborted) || (r == INTERRUPTED && id in h.interrupted)
  {
    StartExplained(retryable);
    RunExplained(NOTHING, START, actions, retryable);
    hide Run;
    hide Notes;
    var s, h := Run(START, actions, retryable), Notes(NOTHING, START, actions, retryable);
    if k < |s.store.log| { assert Sourced(h, s, s.store.log[k].id, s.store.log[k].result); }
  }

  /** The first result of a call stands: it is recorded unless the call has a durable claim. */
  lemma {:induction false} ResultsStand(actions: seq<Action>, retryable: string -> bool, i: nat, a: Action)
    ensures var s := Run(START, actions, retryable);
            var t := Step(s, a, retryable);
            s.batch.Some? && Shaped(s.batch.value) && i < |s.batch.value.results| && s.batch.value.results[i].Some?
            && t.batch.Some? && |t.batch.value.results| == |s.batch.value.results| ==>
              var id := s.batch.value.entries[i].id;
              t.batch.value.results[i]
              == if a.CommitNext? && MayCommit(s) && i == s.batch.value.committed && id in s.chosen
                 then Some(s.chosen[id]) else s.batch.value.results[i]
  {
    StartExplained(retryable);
    RunExplained(NOTHING, START, actions, retryable);
    hide Run;
    var s := Run(START, actions, retryable);
    if s.batch.Some? && i < |s.batch.value.results| && s.batch.value.results[i].Some? {
      if a.CommitNext? {
        if MayCommit(s) { CommitWinner(s, retryable); }
      } else if a.Decide? {
        DecideSlot(s, a.index, a.aborted, retryable);
      } else {
        OtherResults(s, a, i, retryable);
      }
    }
  }

  lemma {:induction false} OtherResults(s: System, a: Action, i: nat, retryable: string -> bool)
    requires s.batch.Some? && i < |s.batch.value.results| && s.batch.value.results[i].Some?
    requires !a.CommitNext? && !a.Decide?
    ensures Step(s, a, retryable).batch.Some? ==>
              i < |Step(s, a, retryable).batch.value.results|
              && Step(s, a, retryable).batch.value.results[i] == s.batch.value.results[i]
  {
  }

  /** The first thing to end a running call gives it its result. */
  lemma {:induction false} EndsAnswer(actions: seq<Action>, retryable: string -> bool, i: nat, result: Outcome)
    ensures var s := Run(START, actions, retryable);
            s.batch.Some? && Shaped(s.batch.value) && i < |s.batch.value.entries| && s.batch.value.results[i].None? ==>
              && (s.batch.value.entries[i].id in s.live ==>
                    var t := Step(s, Finish(i, result), retryable);
                    t.batch.Some? && t.batch.value.results == s.batch.value.results[i := Some(result)]
                    && t.live == s.live - {s.batch.value.entries[i].id})
              && (s.batch.value.decided[i] ==>
                    Step(s, Abort(i), retryable).batch
                    == Some(s.batch.value.(results := s.batch.value.results[i := Some(ABORTED)])))
  {
    StartExplained(retryable);
    RunExplained(NOTHING, START, actions, retryable);
    hide Run;
  }
}
