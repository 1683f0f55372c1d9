/** The ordered, keyed schema migrations of every module and the ledger that records them (AgentStorage.ts). */
module Migrations {
  import opened Basics

  const CORE := "@happy-agent-base"

  /** A module and the keys of its migrations in the order this build lists them. */
  datatype Owner = Owner(name: string, keys: seq<string>)

  /** One row of the ledger. */
  datatype Applied = Applied(position: nat, key: string)

  type Ledger = map<string, seq<Applied>>

  function Rows(ledger: Ledger, name: string): seq<Applied> { if name in ledger then ledger[name] else [] }

  /** The ledger, and the effects of every migration that committed, in order. */
  datatype Database = Database(ledger: Ledger, effects: seq<(string, string)>)

  datatype Refusal = BadModuleNames | BadKeys | NotPrefix | NewerData

  datatype Task = Task(name: string, key: string, position: nat)

  predicate Distinct<T(==)>(s: seq<T>) { forall i, j :: 0 <= i < j < |s| ==> s[i] != s[j] }

  function Names(owners: seq<Owner>): seq<string> {
    seq(|owners|, i requires 0 <= i < |owners| => owners[i].name)
  }

  predicate GoodKeys(keys: seq<string>) { "" !in keys && Distinct(keys) }

  /** Rows at their positions whose keys match the list as far as both go. */
  predicate Matches(rows: seq<Applied>, keys: seq<string>) {
    forall i :: 0 <= i < |rows| ==> rows[i].position == i && (i < |keys| ==> rows[i].key == keys[i])
  }

  function CheckOwner(rows: seq<Applied>, keys: seq<string>): Option<Refusal> {
    if !GoodKeys(keys) then Some(BadKeys) else if !Matches(rows, keys) then Some(NotPrefix) else None
  }

  /** What still has to be applied for one owner. */
  function Tasks(o: Owner, from: nat): seq<Task>
    decreases |o.keys| - from
  {
    if from >= |o.keys| then [] else [Task(o.name, o.keys[from], from)] + Tasks(o, from + 1)
  }

  /** The check of every owner's ledger, in order, and the tasks it leaves; a ledger longer than its list is
      only reported once all of them were read. */
  datatype Plan = Refused(refusal: Refusal) | Planned(tasks: seq<Task>, newer: bool)

  function MakePlan(ledger: Ledger, owners: seq<Owner>): Plan {
    if owners == [] then Planned([], false)
    else
      var o, rows := owners[0], Rows(ledger, owners[0].name);
      if CheckOwner(rows, o.keys).Some? then Refused(CheckOwner(rows, o.keys).value)
      else
        match MakePlan(ledger, owners[1..])
        case Refused(r) => Refused(r)
        case Planned(tasks, newer) => Planned(Tasks(o, |rows|) + tasks, newer || |rows| > |o.keys|)
  }

  /** One transaction: the migration's effect and its ledger row together. */
  function ApplyTask(db: Database, t: Task): Database {
    Database(db.ledger[t.name := Rows(db.ledger, t.name) + [Applied(t.position, t.key)]],
             db.effects + [(t.name, t.key)])
  }

  function ApplyTasks(db: Database, tasks: seq<Task>): Database
    decreases |tasks|
  {
    if tasks == [] then db else ApplyTasks(ApplyTask(db, tasks[0]), tasks[1..])
  }

  function Owners(modules: seq<Owner>, core: seq<string>): seq<Owner> { [Owner(CORE, core)] + modules }

  /** A migration that stops, by failure or crash, after `steps` of its transactions. */
  function Migrated(db: Database, core: seq<string>, modules: seq<Owner>, steps: nat): Result<Database, Refusal> {
    if CORE in Names(modules) || !Distinct(Names(modules)) then Err(BadModuleNames)
    else
      match MakePlan(db.ledger, Owners(modules, core))
      case Refused(r) => Err(r)
      case Planned(tasks, newer) =>
        if newer then Err(NewerData) else Ok(ApplyTasks(db, tasks[..Min(steps, |tasks|)]))
  }

  // ----- As the source performs it -----

  class AgentStorage {
    var ledger: Ledger
    ghost var effects: seq<(string, string)>

    ghost function State(): Database
      reads this
    {
      Database(ledger, effects)
    }

    constructor ()
      ensures State() == Database(map[], [])
    {
      ledger, effects := map[], [];
    }

    method Migrate(core: seq<string>, modules: seq<Owner>, steps: nat) returns (refusal: Option<Refusal>)
      modifies this
      ensures match Migrated(old(State()), core, modules, steps)
              case Err(e) => refusal == Some(e) && State() == old(State())
              case Ok(db) => refusal == None && State() == db
    {
      var names := Names(modules);
      if CORE in names || !Distinct(names) {
        return Some(BadModuleNames);
      }
      hide MakePlan;
      hide ApplyTasks;
      var tasks, newer := [], false;
      refusal, tasks, newer := Check(Owners(modules, core));
      if refusal.Some? {
        return;
      }
      if newer {
        return Some(NewerData);
      }
      Apply(tasks, steps);
    }

    /** Every owner's ledger is read and checked before anything is applied. */
    method Check(owners: seq<Owner>) returns (refusal: Option<Refusal>, tasks: seq<Task>, newer: bool)
      ensures match MakePlan(ledger, owners)
              case Refused(r) => refusal == Some(r)
              case Planned(ts, n) => refusal == None && tasks == ts && newer == n
    {
      tasks, newer, refusal := [], false, None;
      var i := 0;
      while i < |owners|
        invariant 0 <= i <= |owners| && refusal == None
        invariant match MakePlan(ledger, owners[i..])
                  case Refused(r) => MakePlan(ledger, owners) == Refused(r)
                  case Planned(more, late) => MakePlan(ledger, owners) == Planned(tasks + more, newer || late)
      {
        var o := owners[i];
        PlanHead(ledger, owners, i);
        var rows := Rows(ledger, o.name);
        refusal := CheckOwner(rows, o.keys);
        if refusal.Some? {
          return;
        }
        newer := newer || |rows| > |o.keys|;
        AppendToPlan(tasks, Tasks(o, |rows|), MakePlan(ledger, owners[i + 1..]));
        tasks := tasks + Tasks(o, |rows|);
        i := i + 1;
      }
      assert tasks + [] == tasks;
    }

    method Apply(tasks: seq<Task>, steps: nat)
      modifies this
      ensures State() == ApplyTasks(old(State()), tasks[..Min(steps, |tasks|)])
    {
      ghost var chosen := tasks[..Min(steps, |tasks|)];
      var done := 0;
      while done < |tasks| && done < steps
        invariant 0 <= done <= |chosen|
        invariant ApplyTasks(State(), chosen[done..]) == ApplyTasks(old(State()), chosen)
      {
        var task := tasks[done];
        assert chosen[done..][0] == task && chosen[done..][1..] == chosen[done + 1..];
        ledger := ledger[task.name := Rows(ledger, task.name) + [Applied(task.position, task.key)]];
        effects := effects + [(task.name, task.key)];
        done := done + 1;
      }
    }
  }

  lemma {:induction false} PlanHead(ledger: Ledger, owners: seq<Owner>, i: nat)
    requires i < |owners|
    ensures var o, rows := owners[i], Rows(ledger, owners[i].name);
            MakePlan(ledger, owners[i..])
            == if CheckOwner(rows, o.keys).Some? then Refused(CheckOwner(rows, o.keys).value)
               else match MakePlan(ledger, owners[i + 1..])
                    case Refused(r) => Refused(r)
                    case Planned(tasks, newer) => Planned(Tasks(o, |rows|) + tasks, newer || |rows| > |o.keys|)
  {
    assert owners[i..][0] == owners[i] && owners[i..][1..] == owners[i + 1..];
  }

  lemma {:induction false} AppendToPlan(done: seq<Task>, mine: seq<Task>, rest: Plan)
    ensures rest.Planned? ==> done + (mine + rest.tasks) == done + mine + rest.tasks
  {
    if rest.Planned? { Associative(done, mine, rest.tasks); }
  }

  // ----- When a migration is refused -----

  function Keys(rows: seq<Applied>): seq<string> {
    seq(|rows|, i requires 0 <= i < |rows| => rows[i].key)
  }

  /** The ledger records the first migrations of the owner's list. */
  predicate LedgerIsPrefix(ledger: Ledger, o: Owner) {
    var rows := Rows(ledger, o.name);
    Keys(rows) <= o.keys && forall i :: 0 <= i < |rows| ==> rows[i].position == i
  }

  predicate Acceptable(db: Database, core: seq<string>, modules: seq<Owner>) {
    && CORE !in Names(modules) && Distinct(Names(modules))
    && forall i :: 0 <= i < |Owners(modules, core)| ==>
         GoodKeys(Owners(modules, core)[i].keys) && LedgerIsPrefix(db.ledger, Owners(modules, core)[i])
  }

  lemma {:induction false} PrefixMeans(ledger: Ledger, o: Owner)
    ensures LedgerIsPrefix(ledger, o)
        <==> Matches(Rows(ledger, o.name), o.keys) && |Rows(ledger, o.name)| <= |o.keys|
  {
    var rows := Rows(ledger, o.name);
    if Keys(rows) <= o.keys {
      assert forall i :: 0 <= i < |rows| ==> rows[i].key == Keys(rows)[i] == o.keys[i];
    }
  }

  lemma {:induction false} PlanChecks(ledger: Ledger, owners: seq<Owner>)
    ensures var plan := MakePlan(ledger, owners);
            (plan.Planned? && !plan.newer)
            <==> forall i :: 0 <= i < |owners| ==> GoodKeys(owners[i].keys) && LedgerIsPrefix(ledger, owners[i])
  {
    if owners != [] {
      PlanChecks(ledger, owners[1..]);
      PrefixMeans(ledger, owners[0]);
      assert forall i :: 1 <= i < |owners| ==> owners[i] == owners[1..][i - 1];
      assert forall i :: 0 <= i < |owners[1..]| ==> owners[1..][i] == owners[i + 1];
    }
  }

  /** A migration is refused, with nothing applied, exactly when a name or key list is malformed or some
      ledger is not a prefix of its owner's list, be it different or longer. */
  lemma {:induction false} RefusedIff(db: Database, core: seq<string>, modules: seq<Owner>, steps: nat)
    ensures Migrated(db, core, modules, steps).Ok? <==> Acceptable(db, core, modules)
  {
    PlanChecks(db.ledger, Owners(modules, core));
  }

  // ----- What a migration does -----

  function EffectsOf(effects: seq<(string, string)>, name: string): seq<string> {
    if effects == [] then []
    else (if effects[0].0 == name then [effects[0].1] else []) + EffectsOf(effects[1..], name)
  }

  lemma {:induction false} EffectsOfSnoc(effects: seq<(string, string)>, last: (string, string), name: string)
    ensures EffectsOf(effects + [last], name)
         == EffectsOf(effects, name) + (if last.0 == name then [last.1] else [])
  {
    if effects == [] {
      assert [] + [last] == [last] && [last][1..] == [];
    } else {
      EffectsOfSnoc(effects[1..], last, name);
      assert (effects + [last])[1..] == effects[1..] + [last];
    }
  }

  /** Each module's effects are its ledger: every migration recorded there took effect once, in order. */
  ghost predicate Faithful(db: Database) {
    forall name :: EffectsOf(db.effects, name) == Keys(Rows(db.ledger, name)) && Distinct(Keys(Rows(db.ledger, name)))
  }

  /** The owner's rows after the next `done` tasks of its own. */
  predicate Progress(db: Database, o: Owner, done: nat) {
    done <= |o.keys| && Keys(Rows(db.ledger, o.name)) == o.keys[..done]
    && forall i :: 0 <= i < |Rows(db.ledger, o.name)| ==> Rows(db.ledger, o.name)[i].position == i
  }

  lemma {:induction false} TaskProgress(db: Database, o: Owner, done: nat)
    requires Faithful(db) && GoodKeys(o.keys) && done < |o.keys| && Progress(db, o, done)
    ensures var next := ApplyTask(db, Task(o.name, o.keys[done], done));
            && Faithful(next) && Progress(next, o, done + 1)
            && forall name :: name != o.name ==> Rows(next.ledger, name) == Rows(db.ledger, name)
  {
    var task := Task(o.name, o.keys[done], done);
    var next := ApplyTask(db, task);
    var rows := Rows(db.ledger, o.name);
    assert Keys(rows + [Applied(done, o.keys[done])]) == Keys(rows) + [o.keys[done]] == o.keys[..done + 1];
    assert Distinct(o.keys[..done + 1]);
    forall name
      ensures EffectsOf(next.effects, name) == Keys(Rows(next.ledger, name)) && Distinct(Keys(Rows(next.ledger, name)))
    {
      EffectsOfSnoc(db.effects, (task.name, task.key), name);
      assert name != o.name ==> Rows(next.ledger, name) == Rows(db.ledger, name);
    }
  }

  /** Applying the first `n` of an owner's remaining tasks advances its ledger by as many. */
  lemma {:induction false} OwnerProgress(db: Database, o: Owner, done: nat, n: nat)
    requires Faithful(db) && GoodKeys(o.keys) && Progress(db, o, done)
    requires n <= |Tasks(o, done)|
    ensures |Tasks(o, done)| == |o.keys| - done
    ensures var next := ApplyTasks(db, Tasks(o, done)[..n]);
            && Faithful(next) && Progress(next, o, done + n)
            && forall name :: name != o.name ==> Rows(next.ledger, name) == Rows(db.ledger, name)
    decreases |o.keys| - done
  {
    TasksLength(o, done);
    if n > 0 {
      var tasks := Tasks(o, done);
      TaskProgress(db, o, done);
      assert tasks[..n][1..] == Tasks(o, done + 1)[..n - 1];
      TasksLength(o, done + 1);
      OwnerProgress(ApplyTask(db, tasks[0]), o, done + 1, n - 1);
    }
  }

  lemma {:induction false} TasksLength(o: Owner, from: nat)
    requires from <= |o.keys|
    ensures |Tasks(o, from)| == |o.keys| - from
    decreases |o.keys| - from
  {
    if from < |o.keys| { TasksLength(o, from + 1); }
  }

  lemma {:induction false} ApplyTasksConcat(db: Database, a: seq<Task>, b: seq<Task>)
    ensures ApplyTasks(db, a + b) == ApplyTasks(ApplyTasks(db, a), b)
    decreases |a|
  {
    if a == [] {
      assert a + b == b;
    } else {
      assert (a + b)[1..] == a[1..] + b;
      ApplyTasksConcat(ApplyTask(db, a[0]), a[1..], b);
    }
  }

  /** The owner can be planned for from `ledger`, and `db` agrees with `ledger` about it. */
  predicate Ready(ledger: Ledger, db: Database, o: Owner) {
    GoodKeys(o.keys) && LedgerIsPrefix(db.ledger, o) && Rows(ledger, o.name) == Rows(db.ledger, o.name)
  }

  predicate AllReady(ledger: Ledger, db: Database, owners: seq<Owner>) {
    forall o :: o in owners ==> Ready(ledger, db, o)
  }

  lemma {:induction false} OtherNames(owners: seq<Owner>, o: Owner)
    requires owners != [] && Distinct(Names(owners)) && o in owners[1..]
    ensures o.name != owners[0].name
  {
    var i :| 0 <= i < |owners[1..]| && owners[1..][i] == o;
    assert Names(owners)[i + 1] == o.name && Names(owners)[0] == owners[0].name;
  }

  lemma {:induction false} NamesHead(owners: seq<Owner>)
    requires owners != []
    ensures Names(owners) == [owners[0].name] + Names(owners[1..])
  {
  }

  lemma {:induction false} RestOfNames(owners: seq<Owner>)
    requires owners != [] && Distinct(Names(owners))
    ensures Names(owners) == [owners[0].name] + Names(owners[1..]) && Distinct(Names(owners[1..]))
    ensures owners[0].name !in Names(owners[1..])
  {
    NamesHead(owners);
    hide Names;
    DistinctTail(owners[0].name, Names(owners[1..]));
  }

  lemma {:induction false} DistinctTail<T>(head: T, tail: seq<T>)
    requires Distinct([head] + tail)
    ensures Distinct(tail) && head !in tail
  {
    var all := [head] + tail;
    assert forall i :: 0 <= i < |tail| ==> tail[i] == all[i + 1] && all[0] != all[i + 1];
  }

  lemma {:induction false} RestIsReady(ledger: Ledger, db: Database, owners: seq<Owner>, next: Database)
    requires AllReady(ledger, db, owners) && owners != [] && Distinct(Names(owners))
    requires forall name :: name != owners[0].name ==> Rows(next.ledger, name) == Rows(db.ledger, name)
    ensures AllReady(ledger, next, owners[1..])
  {
    forall o | o in owners[1..] ensures Ready(ledger, next, o) {
      OtherNames(owners, o);
      assert o in owners && Ready(ledger, db, o);
    }
  }

  /** All ledgers are prefixes of their lists, and if `whole` they equal them. */
  predicate Reached(db: Database, owners: seq<Owner>, whole: bool) {
    forall o :: o in owners ==>
      LedgerIsPrefix(db.ledger, o) && (whole ==> Keys(Rows(db.ledger, o.name)) == o.keys)
  }

  /** Tasks of several owners, as planned: every owner's ledger stays a prefix of its list, and all of them
      equal their lists once every task is done. */
  lemma {:induction false} PlanProgress(ledger: Ledger, db: Database, owners: seq<Owner>, n: nat)
    requires Faithful(db) && AllReady(ledger, db, owners) && Distinct(Names(owners))
    requires MakePlan(ledger, owners).Planned? && n <= |MakePlan(ledger, owners).tasks|
    ensures var tasks := MakePlan(ledger, owners).tasks;
            var next := ApplyTasks(db, tasks[..n]);
            && Faithful(next) && Reached(next, owners, n == |tasks|)
            && (forall name :: name !in Names(owners) ==> Rows(next.ledger, name) == Rows(db.ledger, name))
    decreases |owners|
  {
    hide *;
    if owners == [] {
      NothingPlanned(ledger, db);
      assert MakePlan(ledger, owners).tasks[..n] == [];
    } else {
      var rest, k := owners[1..], FirstShare(ledger, owners, n);
      var mid := ApplyTasks(db, FirstTasks(ledger, owners)[..k]);
      AfterFirst(ledger, db, owners, n);
      RestOfNames(owners);
      PlanProgress(ledger, mid, rest, n - k);
      FirstReached(mid, ApplyTasks(mid, MakePlan(ledger, rest).tasks[..n - k]), owners,
                   |Rows(ledger, owners[0].name)| + k, n - k == |MakePlan(ledger, rest).tasks|);
    }
  }

  function FirstTasks(ledger: Ledger, owners: seq<Owner>): seq<Task>
    requires owners != []
  {
    Tasks(owners[0], |Rows(ledger, owners[0].name)|)
  }

  /** How many of the first `n` tasks are the first owner's. */
  function FirstShare(ledger: Ledger, owners: seq<Owner>, n: nat): (k: nat)
    requires owners != []
    ensures k <= n && k <= |FirstTasks(ledger, owners)|
  {
    Min(n, |FirstTasks(ledger, owners)|)
  }

  lemma {:induction false} FirstIs(ledger: Ledger, db: Database, owners: seq<Owner>, n: nat)
    requires owners != [] && AllReady(ledger, db, owners)
    ensures FirstTasks(ledger, owners) == Tasks(owners[0], |Rows(db.ledger, owners[0].name)|)
    ensures Rows(ledger, owners[0].name) == Rows(db.ledger, owners[0].name)
    ensures FirstShare(ledger, owners, n) == if n < |FirstTasks(ledger, owners)| then n else |FirstTasks(ledger, owners)|
  {
    assert Ready(ledger, db, owners[0]);
  }

  lemma {:induction false} AfterFirst(ledger: Ledger, db: Database, owners: seq<Owner>, n: nat)
    requires owners != [] && Faithful(db) && AllReady(ledger, db, owners) && Distinct(Names(owners))
    requires MakePlan(ledger, owners).Planned? && n <= |MakePlan(ledger, owners).tasks|
    ensures MakePlan(ledger, owners[1..]).Planned?
    ensures var o, rest, k := owners[0], owners[1..], FirstShare(ledger, owners, n);
            var mid := ApplyTasks(db, FirstTasks(ledger, owners)[..k]);
            var others := MakePlan(ledger, rest).tasks;
            var done := |Rows(ledger, o.name)|;
            && n - k <= |others|
            && ApplyTasks(db, MakePlan(ledger, owners).tasks[..n]) == ApplyTasks(mid, others[..n - k])
            && Faithful(mid) && AllReady(ledger, mid, rest) && Progress(mid, o, done + k)
            && (n == |MakePlan(ledger, owners).tasks| <==> n - k == |others| && done + k == |o.keys|)
            && (forall name :: name != o.name ==> Rows(mid.ledger, name) == Rows(db.ledger, name))
  {
    hide *;
    var k := FirstShare(ledger, owners, n);
    FirstIs(ledger, db, owners, n);
    FirstOwner(ledger, db, owners, k);
    ApplyInParts(db, FirstTasks(ledger, owners), MakePlan(ledger, owners[1..]).tasks, n, k);
  }

  lemma {:induction false} ApplyInParts(db: Database, a: seq<Task>, b: seq<Task>, n: nat, k: nat)
    requires k <= n <= |a| + |b| && (k == n <= |a| || k == |a|)
    ensures ApplyTasks(db, (a + b)[..n]) == ApplyTasks(ApplyTasks(db, a[..k]), b[..n - k])
  {
    ApplyTasksConcat(db, a[..k], b[..n - k]);
    assert (a + b)[..n] == a[..k] + b[..n - k];
  }

  lemma {:induction false} NothingPlanned(ledger: Ledger, db: Database)
    ensures MakePlan(ledger, []) == Planned([], false) && ApplyTasks(db, []) == db && Reached(db, [], true)
  {
  }

  /** The first owner's share of the tasks. */
  lemma {:induction false} FirstOwner(ledger: Ledger, db: Database, owners: seq<Owner>, k: nat)
    requires owners != [] && Faithful(db) && AllReady(ledger, db, owners) && Distinct(Names(owners))
    requires MakePlan(ledger, owners).Planned?
    requires k <= |Tasks(owners[0], |Rows(db.ledger, owners[0].name)|)|
    ensures var o, rest := owners[0], owners[1..];
            var done := |Rows(db.ledger, o.name)|;
            var mid := ApplyTasks(db, Tasks(o, done)[..k]);
            && Faithful(mid) && Progress(mid, o, done + k) && AllReady(ledger, mid, rest)
            && done <= |o.keys| && |Tasks(o, done)| == |o.keys| - done
            && (forall name :: name != o.name ==> Rows(mid.ledger, name) == Rows(db.ledger, name))
            && MakePlan(ledger, rest).Planned?
            && MakePlan(ledger, owners).tasks == Tasks(o, done) + MakePlan(ledger, rest).tasks
  {
    var o := owners[0];
    assert Ready(ledger, db, o);
    var done := |Rows(db.ledger, o.name)|;
    PrefixMeans(db.ledger, o);
    OwnerProgress(db, o, done, k);
    RestIsReady(ledger, db, owners, ApplyTasks(db, Tasks(o, done)[..k]));
  }

  lemma {:induction false} FirstReached(mid: Database, next: Database, owners: seq<Owner>, done: nat, whole: bool)
    requires owners != [] && Progress(mid, owners[0], done) && Reached(next, owners[1..], whole)
    requires Rows(next.ledger, owners[0].name) == Rows(mid.ledger, owners[0].name)
    ensures Reached(next, owners, whole && done == |owners[0].keys|)
  {
    ProgressIsPrefix(next, owners[0], done);
    forall o | o in owners
      ensures LedgerIsPrefix(next.ledger, o)
              && (whole && done == |owners[0].keys| ==> Keys(Rows(next.ledger, o.name)) == o.keys) {
      assert o == owners[0] || o in owners[1..];
    }
  }

  lemma {:induction false} ProgressIsPrefix(db: Database, o: Owner, done: nat)
    requires Progress(db, o, done)
    ensures LedgerIsPrefix(db.ledger, o) && (done == |o.keys| ==> Keys(Rows(db.ledger, o.name)) == o.keys)
  {
  }

  /** One accepted migration, wherever it stops: effects and ledgers agree, every ledger is a prefix of its
      list, and one that was not stopped leaves every ledger equal to its list. */
  lemma {:induction false} MigrationKeepsFaith(db: Database, core: seq<string>, modules: seq<Owner>, steps: nat)
    requires Faithful(db) && Acceptable(db, core, modules)
    ensures Migrated(db, core, modules, steps).Ok?
    ensures var next := Migrated(db, core, modules, steps).value;
            var owners := Owners(modules, core);
            && Faithful(next)
            && Reached(next, owners, steps >= |MakePlan(db.ledger, owners).tasks|)
            && (forall name :: name !in Names(owners) ==> Rows(next.ledger, name) == Rows(db.ledger, name))
  {
    RefusedIff(db, core, modules, steps);
    var owners := Owners(modules, core);
    var tasks := MakePlan(db.ledger, owners).tasks;
    AcceptedIsReady(db, core, modules);
    hide Faithful;
    hide AllReady;
    hide Reached;
    hide Acceptable;
    PlanProgress(db.ledger, db, owners, Min(steps, |tasks|));
  }

  lemma {:induction false} AcceptedIsReady(db: Database, core: seq<string>, modules: seq<Owner>)
    requires Acceptable(db, core, modules)
    ensures var owners := Owners(modules, core);
            Distinct(Names(owners)) && AllReady(db.ledger, db, owners)
  {
    assert Names(Owners(modules, core)) == [CORE] + Names(modules);
  }

  // ----- Any number of migrations -----

  /** One start of one build of the program. */
  datatype Start = Start(core: seq<string>, modules: seq<Owner>, steps: nat)

  function AfterStarts(db: Database, starts: seq<Start>): Database
    decreases |starts|
  {
    if starts == [] then db
    else
      var s := starts[0];
      var r := Migrated(db, s.core, s.modules, s.steps);
      AfterStarts(if r.Ok? then r.value else db, starts[1..])
  }

  lemma {:induction false} StartsKeepFaith(db: Database, starts: seq<Start>)
    requires Faithful(db)
    ensures Faithful(AfterStarts(db, starts))
    decreases |starts|
  {
    if starts != [] {
      var s := starts[0];
      RefusedIff(db, s.core, s.modules, s.steps);
      if Acceptable(db, s.core, s.modules) { MigrationKeepsFaith(db, s.core, s.modules, s.steps); }
      hide Migrated;
      StartsKeepFaith(if Migrated(db, s.core, s.modules, s.steps).Ok? then Migrated(db, s.core, s.modules, s.steps).value
                      else db, starts[1..]);
    }
  }

  /** However often builds start, fail and crash, no migration of a module ever takes effect twice, and
      those that did took effect in the order the ledger records. */
  lemma {:induction false} EffectsOccurOnce(starts: seq<Start>, name: string)
    ensures var db := AfterStarts(Database(map[], []), starts);
            && EffectsOf(db.effects, name) == Keys(Rows(db.ledger, name))
            && Distinct(EffectsOf(db.effects, name))
  {
    StartsKeepFaith(Database(map[], []), starts);
  }
}
