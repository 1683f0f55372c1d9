/** The cached index of an agent system's parent links and its invalidation (AgentSystemLocal.ts). */
module ChildIndex {
  import opened Basics

  /** A child and its parent; the list is in key order of the children. */
  datatype Link = Link(child: string, parent: string)

  type Index = map<string, seq<string>>

  /** The children of one parent, in key order. */
  function Children(links: seq<Link>, parent: string): seq<string> {
    if links == [] then []
    else (if links[0].parent == parent then [links[0].child] else []) + Children(links[1..], parent)
  }

  function Lookup(index: Index, parent: string): seq<string> {
    if parent in index then index[parent] else []
  }

  /** The index lists exactly the children of every parent, and no parent without children. */
  ghost predicate IndexOf(index: Index, links: seq<Link>) {
    && (forall p: string :: Lookup(index, p) == Children(links, p))
    && (forall p: string :: p in index ==> index[p] != [])
  }

  lemma {:induction false} ChildrenSnoc(links: seq<Link>, last: Link, parent: string)
    ensures Children(links + [last], parent)
         == Children(links, parent) + (if last.parent == parent then [last.child] else [])
  {
    if links == [] {
      assert [] + [last] == [last] && [last][1..] == [];
    } else {
      ChildrenSnoc(links[1..], last, parent);
      assert (links + [last])[1..] == links[1..] + [last];
    }
  }

  method BuildIndex(links: seq<Link>) returns (built: Index)
    ensures IndexOf(built, links)
  {
    built := map[];
    for i := 0 to |links|
      invariant IndexOf(built, links[..i])
    {
      assert links[..i + 1] == links[..i] + [links[i]];
      forall p { ChildrenSnoc(links[..i], links[i], p); }
      var link := links[i];
      if link.parent in built {
        built := built[link.parent := built[link.parent] + [link.child]];
      } else {
        built := built[link.parent := [link.child]];
      }
    }
    assert links[..|links|] == links;
  }

  /** A transaction reads its own view of the links directly. */
  method ChildrenInTransaction(links: seq<Link>, parent: string) returns (children: seq<string>)
    ensures children == Children(links, parent)
  {
    children := [];
    for i := 0 to |links|
      invariant children == Children(links[..i], parent)
    {
      assert links[..i + 1] == links[..i] + [links[i]];
      ChildrenSnoc(links[..i], links[i], parent);
      if links[i].parent == parent {
        children := children + [links[i].child];
      }
    }
    assert links[..|links|] == links;
  }

  // ----- Index builds racing with link changes -----

  /** An index build in progress: the generation it started in and the links it has read. */
  datatype Builder = Builder(generation: nat, read: Option<seq<Link>>)

  /** `changing` is the number of open transactions that changed links, `announcing` the number of committed
      ones whose after-commit callback has not run. `source` is the list the installed index was built from. */
  datatype System = System(
    links: seq<Link>,
    generation: nat,
    source: Option<seq<Link>>,
    changing: nat,
    announcing: nat,
    builders: seq<Builder>)

  datatype Action =
    | LinksChanged
    | Commit(links: seq<Link>)
    | RollBack
    | AfterCommit
    | StartBuild
    | ReadLinks(builder: nat)
    | FinishBuild(builder: nat)

  function Invalidated(s: System): System {
    s.(generation := s.generation + 1, source := None)
  }

  function Step(s: System, a: Action): System {
    match a
    case LinksChanged => Invalidated(s.(changing := s.changing + 1))
    case Commit(links) =>
      if s.changing == 0 then s
      else s.(links := links, changing := s.changing - 1, announcing := s.announcing + 1)
    case RollBack => if s.changing == 0 then s else s.(changing := s.changing - 1)
    case AfterCommit => if s.announcing == 0 then s else Invalidated(s.(announcing := s.announcing - 1))
    case StartBuild =>
      if s.source.Some? then s else s.(builders := s.builders + [Builder(s.generation, None)])
    case ReadLinks(i) =>
      if i >= |s.builders| then s else s.(builders := s.builders[i := s.builders[i].(read := Some(s.links))])
    case FinishBuild(i) =>
      if i >= |s.builders| || s.builders[i].read.None? then s
      else
        var b := s.builders[i];
        s.(builders := s.builders[..i] + s.builders[i + 1..],
           source := if b.generation == s.generation then b.read else s.source)
  }

  function Run(s: System, actions: seq<Action>): System
    decreases |actions|
  {
    if actions == [] then s else Run(Step(s, actions[0]), actions[1..])
  }

  function Started(links: seq<Link>): System { System(links, 0, None, 0, 0, []) }

  // ----- The cache as an object -----

  /** The cache itself: its generation, and an index with the links it was built from. */
  class IndexCache {
    var childIndex: Option<Index>
    var generation: nat
    ghost var source: Option<seq<Link>>

    ghost predicate Valid()
      reads this
    {
      match childIndex
      case None => source == None
      case Some(index) => source.Some? && IndexOf(index, source.value)
    }

    /** The transition system with this cache; `base` supplies the store and the builds in progress. */
    ghost function Seen(base: System): System
      reads this
    {
      base.(generation := generation, source := source)
    }

    constructor (ghost links: seq<Link>)
      ensures Valid() && childIndex == None && Seen(Started(links)) == Started(links)
    {
      childIndex, generation, source := None, 0, None;
    }

    method Invalidate(ghost base: System)
      modifies this
      ensures Valid() && childIndex == None && Seen(base) == Invalidated(old(Seen(base)))
    {
      generation := generation + 1;
      childIndex, source := None, None;
    }

    /** End of a build that started in generation `started`: it answers in any case, and is kept only if
        nothing was invalidated since. */
    method Install(started: nat, read: seq<Link>, parent: string, ghost base: System, ghost builder: nat)
      returns (children: seq<string>)
      requires Valid()
      requires builder < |base.builders| && base.builders[builder] == Builder(started, Some(read))
      modifies this
      ensures Valid() && children == Children(read, parent)
      ensures Seen(base.(builders := base.builders[..builder] + base.builders[builder + 1..]))
           == Step(old(Seen(base)), FinishBuild(builder))
    {
      var built := BuildIndex(read);
      if started == generation {
        childIndex, source := Some(built), Some(read);
      }
      return Lookup(built, parent);
    }

    /** An installed index answers from the links it was built from. */
    method Cached(parent: string) returns (children: seq<string>)
      requires Valid() && childIndex.Some?
      ensures children == Children(source.value, parent)
    {
      return Lookup(childIndex.value, parent);
    }
  }

  // ----- What the index says -----

  /** What was read in the current generation is what is committed, unless an announcement is due. */
  predicate Fresh(s: System) {
    && (s.source.Some? && s.announcing == 0 ==> s.source.value == s.links)
    && (forall i :: 0 <= i < |s.builders| ==>
          && s.builders[i].generation <= s.generation
          && (s.builders[i].generation == s.generation && s.builders[i].read.Some? && s.announcing == 0 ==>
                s.builders[i].read.value == s.links))
  }

  lemma {:induction false} StepFresh(s: System, a: Action)
    requires Fresh(s)
    ensures Fresh(Step(s, a))
  {
  }

  lemma {:induction false} RunFresh(s: System, actions: seq<Action>)
    requires Fresh(s)
    ensures Fresh(Run(s, actions))
    decreases |actions|
  {
    hide Step;
    if actions != [] {
      StepFresh(s, actions[0]);
      RunFresh(Step(s, actions[0]), actions[1..]);
    }
  }

  /** In every interleaving of changes, roll-backs, callbacks and slow builds: unless a committed change is
      still waiting for its callback, the installed index was built from the committed links, and so was every
      index that a build in progress would install now. */
  lemma {:induction false} InstalledIndexIsCurrent(links: seq<Link>, actions: seq<Action>, builder: nat)
    ensures var s := Run(Started(links), actions);
            s.announcing == 0 ==>
              && (s.source.Some? ==> s.source.value == s.links)
              && (builder < |s.builders| && Step(s, FinishBuild(builder)).source != s.source ==>
                    Step(s, FinishBuild(builder)).source == Some(s.links))
  {
    RunFresh(Started(links), actions);
  }

  /** While a callback is due the index may be stale. A transaction that changes links, and the callback after it
      committed, both remove the index, and with it whatever any build in progress has read. */
  lemma {:induction false} CallbackClears(links: seq<Link>, actions: seq<Action>, a: Action, builder: nat)
    ensures var s := Run(Started(links), actions);
            var t := Step(s, a);
            a.LinksChanged? || (a.AfterCommit? && s.announcing > 0) ==>
              t.source == None && (builder < |t.builders| ==> Step(t, FinishBuild(builder)).source == None)
  {
    RunFresh(Started(links), actions);
  }

  /** A build that nothing disturbs installs the links as they are. */
  lemma {:induction false} UndisturbedBuildIsInstalled(s: System)
    requires s.source == None
    ensures var n := |s.builders|;
            var t := Step(Step(Step(s, StartBuild), ReadLinks(n)), FinishBuild(n));
            t == s.(source := Some(s.links))
  {
    var n := |s.builders|;
    var b := Step(Step(s, StartBuild), ReadLinks(n));
    assert b.builders == s.builders + [Builder(s.generation, Some(s.links))];
    assert b.builders[..n] + b.builders[n + 1..] == s.builders;
  }

  const ONE: Link := Link("c", "p")

  /** The callback is needed: a build that starts after the first invalidation and reads before the commit
      installs links that are no longer the committed ones. */
  lemma {:induction false} StaleUntilCallback()
    ensures var s := Run(Started([]),
                         [LinksChanged, StartBuild, ReadLinks(0), Commit([ONE]), FinishBuild(0)]);
            s.source == Some([]) && s.links == [ONE] && s.announcing == 1
  {
    var s0 := Started([]);
    var s1 := Step(s0, LinksChanged);
    var s2 := Step(s1, StartBuild);
    var s3 := Step(s2, ReadLinks(0));
    var s4 := Step(s3, Commit([ONE]));
    var s5 := Step(s4, FinishBuild(0));
    var a: seq<Action> := [LinksChanged, StartBuild, ReadLinks(0), Commit([ONE]), FinishBuild(0)];
    assert Run(s0, a) == Run(s1, a[1..]) && a[1..][1..] == a[2..] && a[2..][1..] == a[3..];
    assert Run(s1, a[1..]) == Run(s2, a[2..]) == Run(s3, a[3..]);
    assert a[3..][1..] == a[4..] && a[4..][1..] == [];
    assert Run(s3, a[3..]) == Run(s4, a[4..]) == Run(s5, []);
  }
}
