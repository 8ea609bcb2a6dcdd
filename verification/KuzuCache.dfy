/** The write-through identity caches of the graph provider (mesa_storage/kuzu_provider.py),
    used sequentially. */
module KuzuCache {
  import opened Wrappers

  /** A tenant-scoped identity; the source joins the two parts into one string. */
  datatype Id = Id(agent: string, name: string)

  /** What an assertion is about; assertions are immutable facts. */
  datatype Ends = Ends(subject: Id, target: Option<Id>)

  /** The entities an assertion is linked to in the graph. */
  datatype Links = Links(subjects: set<Id>, targets: set<Id>)

  datatype Graph = Graph(nodes: set<Id>, assertions: map<Id, Links>)

  // ---------------------------------------------------------------------------
  // The graph statements
  // ---------------------------------------------------------------------------

  predicate EndsExist(g: Graph, e: Ends) {
    e.subject in g.nodes && (e.target.Some? ==> e.target.value in g.nodes)
  }

  function TargetSet(e: Ends): set<Id> {
    if e.target.Some? then {e.target.value} else {}
  }

  function MergeNode(g: Graph, n: Id): Graph {
    g.(nodes := g.nodes + {n})
  }

  /** MATCH the endpoints, MERGE the assertion and its links; nothing when an endpoint is absent. */
  function MergeAssertion(g: Graph, a: Id, e: Ends): Graph {
    if !EndsExist(g, e) then g else
      var was := if a in g.assertions then g.assertions[a] else Links({}, {});
      g.(assertions := g.assertions[a := Links(was.subjects + {e.subject}, was.targets + TargetSet(e))])
  }

  function BySubject(g: Graph, ids: set<Id>): set<Id> {
    set a | a in g.assertions && g.assertions[a].subjects * ids != {}
  }

  function ByTarget(g: Graph, ids: set<Id>): set<Id> {
    set a | a in g.assertions && g.assertions[a].targets * ids != {}
  }

  function Attached(g: Graph, ids: set<Id>): set<Id> {
    BySubject(g, ids) + ByTarget(g, ids)
  }

  function PurgeSubjects(g: Graph, ids: set<Id>): Graph {
    g.(assertions := g.assertions - BySubject(g, ids))
  }

  function PurgeTargets(g: Graph, ids: set<Id>): Graph {
    g.(assertions := g.assertions - ByTarget(g, ids))
  }

  /** The first `writes` of the three statements of delete_nodes. */
  function PurgeNodes(g: Graph, ids: set<Id>, writes: nat): Graph {
    if writes == 0 then g
    else if writes == 1 then PurgeSubjects(g, ids)
    else
      var h := PurgeTargets(PurgeSubjects(g, ids), ids);
      if writes == 2 then h else h.(nodes := h.nodes - ids)
  }

  function PurgeAssertions(g: Graph, ids: set<Id>): Graph {
    g.(assertions := g.assertions - ids)
  }

  // ---------------------------------------------------------------------------
  // The provider
  // ---------------------------------------------------------------------------

  /** The visible graph, the graph a rollback returns to, and the provider's caches. */
  datatype State = State(
    graph: Graph,
    saved: Option<Graph>,
    knownNodes: set<Id>,
    knownAssertions: set<Id>,
    stagedNodes: seq<set<Id>>,
    stagedAssertions: seq<set<Id>>)

  /** `subjectsFound` and `targetsFound` say whether the two lookups of attached assertions
      succeed, `writes` how many of the deleting statements do (3 when none raises). */
  datatype Op =
    | Begin
    | Commit(succeeds: bool)
    | Rollback
    | InsertNode(node: Id)
    | InsertAssertion(assertion: Id, ends: Ends)
    | DeleteNodes(nodes: set<Id>, subjectsFound: bool, targetsFound: bool, writes: nat)
    | DeleteAssertions(assertions: set<Id>)

  function Staged(stack: seq<set<Id>>): set<Id> {
    if stack == [] then {} else Staged(stack[..|stack| - 1]) + stack[|stack| - 1]
  }

  function CachedNodes(s: State): set<Id> {
    s.knownNodes + Staged(s.stagedNodes)
  }

  function CachedAssertions(s: State): set<Id> {
    s.knownAssertions + Staged(s.stagedAssertions)
  }

  function Drop(stack: seq<set<Id>>, ids: set<Id>): (r: seq<set<Id>>)
    ensures |r| == |stack| && Staged(r) == Staged(stack) - ids
  {
    if stack == [] then [] else
      var r := Drop(stack[..|stack| - 1], ids) + [stack[|stack| - 1] - ids];
      assert r[..|r| - 1] == Drop(stack[..|stack| - 1], ids);
      r
  }

  function Push(stack: seq<set<Id>>, id: Id): seq<set<Id>>
    requires stack != []
  {
    stack[|stack| - 1 := stack[|stack| - 1] + {id}]
  }

  /** What the lookups before a node deletion find. */
  function Found(g: Graph, ids: set<Id>, subjectsFound: bool, targetsFound: bool): set<Id> {
    (if subjectsFound then BySubject(g, ids) else {}) + (if targetsFound then ByTarget(g, ids) else {})
  }

  function RolledBack(s: State): State {
    if s.saved.None? then s else
      State(s.saved.value, None, s.knownNodes, s.knownAssertions, [], [])
  }

  function Apply(s: State, op: Op): State {
    match op
    case Begin =>
      if s.saved.Some? then s
      else s.(saved := Some(s.graph),
              stagedNodes := s.stagedNodes + [{}], stagedAssertions := s.stagedAssertions + [{}])
    case Commit(succeeds) =>
      if s.saved.None? then s
      else if !succeeds then RolledBack(s)
      else State(s.graph, None, CachedNodes(s), CachedAssertions(s), [], [])
    case Rollback => RolledBack(s)
    case InsertNode(n) =>
      if n in CachedNodes(s) then s
      else if s.stagedNodes != [] then s.(graph := MergeNode(s.graph, n), stagedNodes := Push(s.stagedNodes, n))
      else s.(graph := MergeNode(s.graph, n), knownNodes := s.knownNodes + {n})
    case InsertAssertion(a, e) =>
      if a in CachedAssertions(s) then s
      else if s.stagedAssertions != [] then
        s.(graph := MergeAssertion(s.graph, a, e), stagedAssertions := Push(s.stagedAssertions, a))
      else s.(graph := MergeAssertion(s.graph, a, e), knownAssertions := s.knownAssertions + {a})
    case DeleteNodes(ids, subjectsFound, targetsFound, writes) =>
      var g := PurgeNodes(s.graph, ids, writes);
      if writes < 3 then s.(graph := g) else
        var found := Found(s.graph, ids, subjectsFound, targetsFound);
        State(g, s.saved, s.knownNodes - ids, s.knownAssertions - found,
              Drop(s.stagedNodes, ids), Drop(s.stagedAssertions, found))
    case DeleteAssertions(ids) =>
      s.(graph := PurgeAssertions(s.graph, ids), knownAssertions := s.knownAssertions - ids,
         stagedAssertions := Drop(s.stagedAssertions, ids))
  }

  /** What an insert caches is cached at once, also inside a transaction, and a commit that
      succeeds keeps it. */
  lemma InsertedIsCached(s: State, op: Op)
    ensures op.InsertNode? ==> CachedNodes(Apply(s, op)) == CachedNodes(s) + {op.node}
                               && CachedAssertions(Apply(s, op)) == CachedAssertions(s)
    ensures op.InsertAssertion? ==> CachedAssertions(Apply(s, op)) == CachedAssertions(s) + {op.assertion}
                                    && CachedNodes(Apply(s, op)) == CachedNodes(s)
    ensures op == Commit(true) ==> CachedNodes(Apply(s, op)) == CachedNodes(s)
                                   && CachedAssertions(Apply(s, op)) == CachedAssertions(s)
  {
    assert Staged([]) == {};
    if op.InsertNode? && s.stagedNodes != [] {
      var pushed := Push(s.stagedNodes, op.node);
      assert pushed[..|pushed| - 1] == s.stagedNodes[..|s.stagedNodes| - 1];
    }
    if op.InsertAssertion? && s.stagedAssertions != [] {
      var pushed := Push(s.stagedAssertions, op.assertion);
      assert pushed[..|pushed| - 1] == s.stagedAssertions[..|s.stagedAssertions| - 1];
    }
  }

  /** A finished deletion takes out of the graph exactly the named assertions, or exactly the
      named nodes and every assertion linked to one of them; nothing else changes there, and
      of the caches only the named ids and what the lookups found. */
  lemma DeletionIsExact(s: State, op: Op)
    requires op.DeleteAssertions? || (op.DeleteNodes? && op.writes >= 3)
    ensures var (t, nodes) := (Apply(s, op), if op.DeleteNodes? then op.nodes else {});
            && (forall n :: n in t.graph.nodes <==> n in s.graph.nodes && n !in nodes)
            && (forall n :: n in CachedNodes(t) <==> n in CachedNodes(s) && n !in nodes)
            && (forall a | a in t.graph.assertions :: a in s.graph.assertions
                                                      && t.graph.assertions[a] == s.graph.assertions[a])
            && (forall a | a in s.graph.assertions :: a !in t.graph.assertions <==>
                  if op.DeleteAssertions? then a in op.assertions
                  else exists n :: n in nodes && (n in s.graph.assertions[a].subjects
                                                  || n in s.graph.assertions[a].targets))
            && (op.DeleteAssertions? ==>
                  CachedAssertions(t) == CachedAssertions(s) - op.assertions)
            && (op.DeleteNodes? ==> forall a | a in CachedAssertions(s) :: a !in CachedAssertions(t) <==>
                  && a in s.graph.assertions
                  && exists n :: n in nodes && ((op.subjectsFound && n in s.graph.assertions[a].subjects)
                                                || (op.targetsFound && n in s.graph.assertions[a].targets)))
            && CachedAssertions(t) <= CachedAssertions(s)
  {
    var ids := if op.DeleteNodes? then op.nodes else {};
    forall a | a in s.graph.assertions
      ensures Meets(s.graph.assertions[a].subjects, ids) && Meets(s.graph.assertions[a].targets, ids)
    {
      MeetsAlways(s.graph.assertions[a].subjects, ids);
      MeetsAlways(s.graph.assertions[a].targets, ids);
    }
  }

  ghost predicate Meets(some: set<Id>, ids: set<Id>) {
    some * ids != {} <==> exists n :: n in ids && n in some
  }

  lemma MeetsAlways(some: set<Id>, ids: set<Id>)
    ensures Meets(some, ids)
  {
    if n :| n in ids && n in some { assert n in some * ids; }
  }

  lemma AfterDeletion(
      s: State, ids: set<Id>, subjectsFound: bool, targetsFound: bool, writes: nat, g: Graph, found: set<Id>)
    requires g == PurgeNodes(s.graph, ids, writes) && found == Found(s.graph, ids, subjectsFound, targetsFound)
    ensures Apply(s, Op.DeleteNodes(ids, subjectsFound, targetsFound, writes))
            == if writes < 3 then s.(graph := g)
               else State(g, s.saved, s.knownNodes - ids, s.knownAssertions - found,
                          Drop(s.stagedNodes, ids), Drop(s.stagedAssertions, found))
  {
  }

  class KuzuGraphProvider {
    var graph: Graph
    var saved: Option<Graph>
    var knownNodes: set<Id>
    var knownAssertions: set<Id>
    var stagedNodes: seq<set<Id>>
    var stagedAssertions: seq<set<Id>>

    ghost function Abstract(): State
      reads this
    {
      State(graph, saved, knownNodes, knownAssertions, stagedNodes, stagedAssertions)
    }

    /** At most one transaction is open, and each open one has its staged sets. */
    ghost predicate OneLevel()
      reads this
    {
      |stagedNodes| == |stagedAssertions| == if saved.Some? then 1 else 0
    }

    constructor (g: Graph)
      ensures OneLevel() && Abstract() == State(g, None, {}, {}, [], [])
    {
      graph, saved, knownNodes, knownAssertions := g, None, {}, {};
      stagedNodes, stagedAssertions := [], [];
    }

    /** BEGIN is refused inside a transaction, before anything is staged. */
    method BeginTransaction() returns (ok: bool)
      requires OneLevel()
      modifies this
      ensures OneLevel() && Abstract() == Apply(old(Abstract()), Begin)
      ensures ok == old(saved).None?
    {
      if saved.Some? { return false; }
      saved := Some(graph);
      stagedNodes, stagedAssertions := stagedNodes + [{}], stagedAssertions + [{}];
      return true;
    }

    /** No level is open around this one, so what was staged becomes known. */
    method EndTransaction(commits: bool)
      requires OneLevel() && saved.Some?
      modifies this
      ensures OneLevel() && Abstract() == Apply(old(Abstract()), Commit(commits))
    {
      var n, a := stagedNodes[|stagedNodes| - 1], stagedAssertions[|stagedAssertions| - 1];
      assert Staged(stagedNodes[..0]) == {} && Staged(stagedAssertions[..0]) == {};
      stagedNodes, stagedAssertions := stagedNodes[..|stagedNodes| - 1], stagedAssertions[..|stagedAssertions| - 1];
      if commits {
        knownNodes, knownAssertions := knownNodes + n, knownAssertions + a;
      } else {
        graph := saved.value;
      }
      saved := None;
    }

    method InsertNode(n: Id)
      requires OneLevel()
      modifies this
      ensures OneLevel() && Abstract() == Apply(old(Abstract()), Op.InsertNode(n))
    {
      if n in knownNodes || n in Staged(stagedNodes) { return; }
      graph := MergeNode(graph, n);
      if stagedNodes != [] {
        stagedNodes := Push(stagedNodes, n);
      } else {
        knownNodes := knownNodes + {n};
      }
    }

    method InsertAssertion(a: Id, e: Ends)
      requires OneLevel()
      modifies this
      ensures OneLevel() && Abstract() == Apply(old(Abstract()), Op.InsertAssertion(a, e))
    {
      if a in knownAssertions || a in Staged(stagedAssertions) { return; }
      graph := MergeAssertion(graph, a, e);
      if stagedAssertions != [] {
        stagedAssertions := Push(stagedAssertions, a);
      } else {
        knownAssertions := knownAssertions + {a};
      }
    }

    /** Both lookups, a failing one contributing nothing. */
    method FindAttached(ids: set<Id>, subjectsFound: bool, targetsFound: bool) returns (found: set<Id>)
      ensures found == Found(graph, ids, subjectsFound, targetsFound)
    {
      found := {};
      if subjectsFound { found := found + BySubject(graph, ids); }
      if targetsFound { found := found + ByTarget(graph, ids); }
    }

    method DeleteNodes(ids: set<Id>, subjectsFound: bool, targetsFound: bool, writes: nat) returns (ok: bool)
      requires OneLevel()
      modifies this
      ensures OneLevel() && ok == (writes >= 3)
      ensures Abstract() == Apply(old(Abstract()), Op.DeleteNodes(ids, subjectsFound, targetsFound, writes))
    {
      ghost var s, g := Abstract(), PurgeNodes(graph, ids, writes);
      var deleted := FindAttached(ids, subjectsFound, targetsFound);
      ok := PurgeGraph(ids, writes);
      AfterDeletion(s, ids, subjectsFound, targetsFound, writes, g, deleted);
      if ok { Forget(ids, deleted); }
    }

    method Forget(nodes: set<Id>, assertions: set<Id>)
      modifies `knownNodes, `stagedNodes, `knownAssertions, `stagedAssertions
      ensures knownNodes == old(knownNodes) - nodes && stagedNodes == Drop(old(stagedNodes), nodes)
      ensures knownAssertions == old(knownAssertions) - assertions
      ensures stagedAssertions == Drop(old(stagedAssertions), assertions)
    {
      knownNodes, stagedNodes := knownNodes - nodes, Drop(stagedNodes, nodes);
      knownAssertions, stagedAssertions := knownAssertions - assertions, Drop(stagedAssertions, assertions);
    }

    /** The three deleting statements, up to the first that raises. */
    method PurgeGraph(ids: set<Id>, writes: nat) returns (ok: bool)
      modifies `graph
      ensures graph == PurgeNodes(old(graph), ids, writes) && ok == (writes >= 3)
    {
      if writes == 0 { return false; }
      graph := PurgeSubjects(graph, ids);
      if writes == 1 { return false; }
      graph := PurgeTargets(graph, ids);
      if writes == 2 { return false; }
      graph := graph.(nodes := graph.nodes - ids);
      return true;
    }

    method DeleteAssertions(ids: set<Id>)
      requires OneLevel()
      modifies this
      ensures OneLevel() && Abstract() == Apply(old(Abstract()), Op.DeleteAssertions(ids))
    {
      graph := PurgeAssertions(graph, ids);
      knownAssertions, stagedAssertions := knownAssertions - ids, Drop(stagedAssertions, ids);
    }
  }

  // ---------------------------------------------------------------------------
  // Coherence
  // ---------------------------------------------------------------------------

  /** What is known of the ends every insert of an assertion id names; None when different
      inserts of the id may name different ends. */
  type Facts = Id -> Option<Ends>

  predicate HasLinks(g: Graph, a: Id, e: Ends) {
    a in g.assertions && e.subject in g.assertions[a].subjects && TargetSet(e) <= g.assertions[a].targets
  }

  /** The assertion is in the graph, with the links known of it. */
  predicate Backed(g: Graph, facts: Facts, a: Id) {
    a in g.assertions && (facts(a).Some? ==> HasLinks(g, a, facts(a).value))
  }

  /** Links lead to entities that exist. */
  ghost predicate Linked(g: Graph) {
    forall a | a in g.assertions :: g.assertions[a].subjects <= g.nodes && g.assertions[a].targets <= g.nodes
  }

  /** Assertions with known ends are linked to nothing else. */
  ghost predicate Factual(g: Graph, facts: Facts) {
    forall a | a in g.assertions && facts(a).Some? ::
      g.assertions[a].subjects <= {facts(a).value.subject} && g.assertions[a].targets <= TargetSet(facts(a).value)
  }

  ghost predicate InGraph(g: Graph, facts: Facts, nodes: set<Id>, assertions: set<Id>) {
    && nodes <= g.nodes
    && forall a | a in assertions :: Backed(g, facts, a)
  }

  /** Everything cached is in the visible graph. */
  ghost predicate CacheBacked(s: State, facts: Facts) {
    InGraph(s.graph, facts, CachedNodes(s), CachedAssertions(s))
  }

  /** What holds whatever the caches claim: one transaction at most, sound graphs, and the
      committed part of the caches backed by the graph a rollback returns to. */
  ghost predicate Recoverable(s: State, facts: Facts) {
    && |s.stagedNodes| == |s.stagedAssertions| == (if s.saved.Some? then 1 else 0)
    && Linked(s.graph) && Factual(s.graph, facts)
    && (s.saved.Some? ==>
          Linked(s.saved.value) && Factual(s.saved.value, facts)
          && InGraph(s.saved.value, facts, s.knownNodes, s.knownAssertions))
  }

  ghost predicate Coherent(s: State, facts: Facts) {
    Recoverable(s, facts) && CacheBacked(s, facts)
  }

  /** The insert names the ends known of its assertion. */
  predicate Truthful(op: Op, facts: Facts) {
    op.InsertAssertion? && facts(op.assertion).Some? ==> op.ends == facts(op.assertion).value
  }

  /** Exactly when an operation leaves the caches coherent. */
  predicate Safe(s: State, facts: Facts, op: Op) {
    match op
    case InsertAssertion(a, e) =>
      a in CachedAssertions(s) || EndsExist(s.graph, e) || (facts(a).None? && a in s.graph.assertions)
    case DeleteNodes(ids, subjectsFound, targetsFound, writes) =>
      if writes == 0 then true
      else if writes == 1 then CachedAssertions(s) !! BySubject(s.graph, ids)
      else if writes == 2 then CachedAssertions(s) !! Attached(s.graph, ids)
      else CachedAssertions(s) * Attached(s.graph, ids) <= Found(s.graph, ids, subjectsFound, targetsFound)
    case _ => true
  }

  lemma StagedOne(stack: seq<set<Id>>)
    requires |stack| <= 1
    ensures Staged(stack) == if stack == [] then {} else stack[0]
    ensures forall id | stack != [] :: Staged(Push(stack, id)) == Staged(stack) + {id}
  {
    if stack != [] {
      assert stack[..0] == [];
      forall id ensures Staged(Push(stack, id)) == Staged(stack) + {id} { assert Push(stack, id)[..0] == []; }
    }
  }

  lemma MergeKeeps(g: Graph, facts: Facts, a: Id, e: Ends)
    requires Linked(g) && Factual(g, facts) && (facts(a).Some? ==> e == facts(a).value)
    ensures var g' := MergeAssertion(g, a, e);
            && Linked(g') && Factual(g', facts)
            && (Backed(g', facts, a) <==> EndsExist(g, e) || (facts(a).None? && a in g.assertions))
            && (forall b | Backed(g, facts, b) :: Backed(g', facts, b))
  {
  }

  lemma InsertKeeps(s: State, facts: Facts, op: Op)
    requires Recoverable(s, facts) && Truthful(op, facts) && (op.InsertNode? || op.InsertAssertion?)
    ensures Recoverable(Apply(s, op), facts)
    ensures CacheBacked(s, facts) ==> (CacheBacked(Apply(s, op), facts) <==> Safe(s, facts, op))
  {
    StagedOne(s.stagedNodes);
    StagedOne(s.stagedAssertions);
    if op.InsertAssertion? {
      MergeKeeps(s.graph, facts, op.assertion, op.ends);
      if op.assertion !in CachedAssertions(s) {
        assert CachedAssertions(Apply(s, op)) == CachedAssertions(s) + {op.assertion};
      }
    }
  }

  lemma PurgeKeeps(g: Graph, facts: Facts, ids: set<Id>, writes: nat)
    requires Linked(g) && Factual(g, facts)
    ensures var g' := PurgeNodes(g, ids, writes); Linked(g') && Factual(g', facts)
    ensures forall a :: Backed(PurgeNodes(g, ids, writes), facts, a) <==>
                          && Backed(g, facts, a)
                          && (writes >= 1 ==> a !in BySubject(g, ids)) && (writes >= 2 ==> a !in ByTarget(g, ids))
  {
    var g' := PurgeNodes(g, ids, writes);
    var h := PurgeSubjects(g, ids);
    forall a | writes >= 3 && a in g'.assertions
      ensures g'.assertions[a].subjects <= g'.nodes && g'.assertions[a].targets <= g'.nodes
    {
      assert a !in BySubject(g, ids) && a !in ByTarget(h, ids);
      DisjointStays(g.assertions[a].subjects, g.nodes, ids);
      DisjointStays(g.assertions[a].targets, g.nodes, ids);
    }
  }

  lemma DisjointStays(xs: set<Id>, nodes: set<Id>, ids: set<Id>)
    requires xs <= nodes && xs * ids == {}
    ensures xs <= nodes - ids
  {
    forall x | x in xs ensures x !in ids { assert x in ids ==> x in xs * ids; }
  }

  lemma DeleteNodesKeeps(s: State, facts: Facts, op: Op)
    requires Recoverable(s, facts) && op.DeleteNodes?
    ensures Recoverable(Apply(s, op), facts)
    ensures CacheBacked(s, facts) ==> (CacheBacked(Apply(s, op), facts) <==> Safe(s, facts, op))
  {
    PurgeKeeps(s.graph, facts, op.nodes, op.writes);
    var s' := Apply(s, op);
    if op.writes >= 3 {
      assert CachedNodes(s') == CachedNodes(s) - op.nodes;
      assert CachedAssertions(s') == CachedAssertions(s) - Found(s.graph, op.nodes, op.subjectsFound, op.targetsFound);
    }
  }

  lemma DeleteAssertionsKeeps(s: State, facts: Facts, op: Op)
    requires Recoverable(s, facts) && op.DeleteAssertions?
    ensures Recoverable(Apply(s, op), facts)
    ensures CacheBacked(s, facts) ==> CacheBacked(Apply(s, op), facts)
  {
    assert CachedAssertions(Apply(s, op)) == CachedAssertions(s) - op.assertions;
  }

  /** A rollback makes the caches coherent again, even when they were not. */
  lemma RollbackRestores(s: State, facts: Facts)
    requires Recoverable(s, facts) && s.saved.Some?
    ensures Coherent(Apply(s, Rollback), facts) && Apply(s, Rollback).graph == s.saved.value
  {
  }

  lemma BeginKeeps(s: State, facts: Facts)
    requires Coherent(s, facts)
    ensures Coherent(Apply(s, Begin), facts)
  {
    if s.saved.None? {
      assert s.stagedNodes == [] && s.stagedAssertions == [];
      assert s.stagedNodes + [{}] == [{}] && s.stagedAssertions + [{}] == [{}];
      StagedOne([{}]);
      assert CachedNodes(Apply(s, Begin)) == CachedNodes(s);
      assert CachedAssertions(Apply(s, Begin)) == CachedAssertions(s);
    }
  }

  lemma CommitKeeps(s: State, facts: Facts, succeeds: bool)
    requires Coherent(s, facts)
    ensures Coherent(Apply(s, Commit(succeeds)), facts)
  {
    if s.saved.Some? {
      var after := Apply(s, Commit(succeeds));
      assert Staged(after.stagedNodes) == {} && Staged(after.stagedAssertions) == {};
    }
  }

  /** One operation on coherent caches: they stay coherent if and only if it is safe. */
  lemma CoherentIff(s: State, facts: Facts, op: Op)
    requires Coherent(s, facts) && Truthful(op, facts)
    ensures Coherent(Apply(s, op), facts) <==> Safe(s, facts, op)
  {
    match op
    case InsertNode(_) => InsertKeeps(s, facts, op);
    case InsertAssertion(_, _) => InsertKeeps(s, facts, op);
    case DeleteNodes(_, _, _, _) => DeleteNodesKeeps(s, facts, op);
    case DeleteAssertions(_) => DeleteAssertionsKeeps(s, facts, op);
    case Begin => BeginKeeps(s, facts);
    case Commit(succeeds) => CommitKeeps(s, facts, succeeds);
    case Rollback => if s.saved.Some? { RollbackRestores(s, facts); }
  }

  /** Nothing is known of the ends of any assertion. */
  function NoFacts(): Facts {
    _ => None
  }

  /** Without any assumption on the ends that inserts name: coherent caches hold only ids of the
      visible graph, and they stay so if and only if the operation is safe. */
  lemma PresenceIff(s: State, op: Op)
    requires Coherent(s, NoFacts())
    ensures CachedNodes(s) <= s.graph.nodes && CachedAssertions(s) <= s.graph.assertions.Keys
    ensures Coherent(Apply(s, op), NoFacts()) <==> Safe(s, NoFacts(), op)
  {
    forall a | a in CachedAssertions(s) ensures a in s.graph.assertions { assert Backed(s.graph, NoFacts(), a); }
    CoherentIff(s, NoFacts(), op);
  }

  // ---------------------------------------------------------------------------
  // Whole runs
  // ---------------------------------------------------------------------------

  function Run(s: State, ops: seq<Op>): State
    decreases |ops|
  {
    if ops == [] then s else Run(Apply(s, ops[0]), ops[1..])
  }

  /** Exactly when skipping a cached insert does what its MERGE would do. */
  predicate SkipIsHarmless(s: State, op: Op) {
    op.InsertAssertion? && op.assertion in CachedAssertions(s) ==>
      !EndsExist(s.graph, op.ends) || HasLinks(s.graph, op.assertion, op.ends)
  }

  ghost predicate SafeRun(s: State, facts: Facts, ops: seq<Op>)
    decreases |ops|
  {
    ops != [] ==>
      && Truthful(ops[0], facts) && Safe(s, facts, ops[0]) && SkipIsHarmless(s, ops[0])
      && SafeRun(Apply(s, ops[0]), facts, ops[1..])
  }

  /** The same operations on the graph alone, every insert performing its MERGE. */
  datatype Plain = Plain(graph: Graph, saved: Option<Graph>)

  function PlainApply(p: Plain, op: Op): Plain {
    match op
    case Begin => if p.saved.Some? then p else p.(saved := Some(p.graph))
    case Commit(succeeds) =>
      if p.saved.None? then p else if succeeds then p.(saved := None) else Plain(p.saved.value, None)
    case Rollback => if p.saved.None? then p else Plain(p.saved.value, None)
    case InsertNode(n) => p.(graph := MergeNode(p.graph, n))
    case InsertAssertion(a, e) => p.(graph := MergeAssertion(p.graph, a, e))
    case DeleteNodes(ids, _, _, writes) => p.(graph := PurgeNodes(p.graph, ids, writes))
    case DeleteAssertions(ids) => p.(graph := PurgeAssertions(p.graph, ids))
  }

  function PlainRun(p: Plain, ops: seq<Op>): Plain
    decreases |ops|
  {
    if ops == [] then p else PlainRun(PlainApply(p, ops[0]), ops[1..])
  }

  function Bare(s: State): Plain {
    Plain(s.graph, s.saved)
  }

  /** On coherent caches, whatever ends the inserts name, the cached operation does what the
      plain one does if and only if the skip is harmless. */
  lemma SkipEqualsMergeIff(s: State, facts: Facts, op: Op)
    requires Coherent(s, facts)
    ensures Bare(Apply(s, op)) == PlainApply(Bare(s), op) <==> SkipIsHarmless(s, op)
  {
    if op.InsertNode? && op.node in CachedNodes(s) {
      assert s.graph.nodes + {op.node} == s.graph.nodes;
    }
    if op.InsertAssertion? && op.assertion in CachedAssertions(s) {
      MergeChangesIff(s.graph, op.assertion, op.ends);
    }
  }

  lemma MergeChangesIff(g: Graph, a: Id, e: Ends)
    requires a in g.assertions
    ensures MergeAssertion(g, a, e) == g <==> !EndsExist(g, e) || HasLinks(g, a, e)
  {
    var was := g.assertions[a];
    if EndsExist(g, e) && HasLinks(g, a, e) {
      assert was.subjects + {e.subject} == was.subjects && was.targets + TargetSet(e) == was.targets;
      assert g.assertions[a := was] == g.assertions;
    } else if EndsExist(g, e) {
      var now := MergeAssertion(g, a, e).assertions[a];
      assert e.subject in now.subjects && TargetSet(e) <= now.targets;
    }
  }

  /** When an assertion id is always inserted with the same ends, no skip does harm. */
  lemma FixedEndsAreHarmless(s: State, facts: Facts, op: Op)
    requires Coherent(s, facts) && Truthful(op, facts)
    requires op.InsertAssertion? ==> facts(op.assertion).Some?
    ensures SkipIsHarmless(s, op)
  {
  }

  /** Over every safe run the caches stay contained in the graph, and the graph is the one the
      uncached statements would have produced. */
  lemma {:induction false} CachedRunIsExact(s: State, facts: Facts, ops: seq<Op>)
    requires Coherent(s, facts) && SafeRun(s, facts, ops)
    ensures Coherent(Run(s, ops), facts)
    ensures Bare(Run(s, ops)) == PlainRun(Bare(s), ops)
    decreases |ops|
  {
    if ops != [] {
      CoherentIff(s, facts, ops[0]);
      SkipEqualsMergeIff(s, facts, ops[0]);
      CachedRunIsExact(Apply(s, ops[0]), facts, ops[1..]);
    }
  }

  predicate IsWrite(op: Op) {
    !op.Begin? && !op.Commit? && !op.Rollback?
  }

  lemma {:induction false} WritesKeepRecoverable(s: State, facts: Facts, body: seq<Op>)
    requires Recoverable(s, facts) && forall i | 0 <= i < |body| :: IsWrite(body[i]) && Truthful(body[i], facts)
    ensures Recoverable(Run(s, body), facts) && Run(s, body).saved == s.saved
    decreases |body|
  {
    if body != [] {
      var op := body[0];
      assert IsWrite(op) && Truthful(op, facts);
      match op {
        case InsertNode(_) => InsertKeeps(s, facts, op);
        case InsertAssertion(_, _) => InsertKeeps(s, facts, op);
        case DeleteNodes(_, _, _, _) => DeleteNodesKeeps(s, facts, op);
        case DeleteAssertions(_) => DeleteAssertionsKeeps(s, facts, op);
        case _ =>
      }
      WritesKeepRecoverable(Apply(s, op), facts, body[1..]);
    }
  }

  /** A transaction that is rolled back, or whose commit fails, leaves the graph as it was and
      the caches coherent, however unsafe its writes were. */
  lemma RolledBackTransaction(s: State, facts: Facts, body: seq<Op>, end: Op)
    requires Coherent(s, facts) && s.saved.None?
    requires forall i | 0 <= i < |body| :: IsWrite(body[i]) && Truthful(body[i], facts)
    requires end == Rollback || end == Commit(false)
    ensures var after := Apply(Run(Apply(s, Begin), body), end);
            Coherent(after, facts) && Bare(after) == Bare(s)
  {
    BeginKeeps(s, facts);
    WritesKeepRecoverable(Apply(s, Begin), facts, body);
    RollbackRestores(Run(Apply(s, Begin), body), facts);
  }

  /** Inserting an assertion before its subject caches it without writing it; the later insert
      is then skipped and the assertion never reaches the graph. */
  lemma AbsentEndpointIsLost(a: Id, n: Id)
    ensures var e := Ends(n, None);
            var ops := [InsertAssertion(a, e), InsertNode(n), InsertAssertion(a, e)];
            var s := State(Graph({}, map[]), None, {}, {}, [], []);
            && a in CachedAssertions(Run(s, ops)) && a !in Run(s, ops).graph.assertions
            && a in PlainRun(Bare(s), ops).graph.assertions
  {
    var e := Ends(n, None);
    var first, second := InsertAssertion(a, e), InsertNode(n);
    var s0 := State(Graph({}, map[]), None, {}, {}, [], []);
    var s1 := Apply(s0, first);
    var s2 := Apply(s1, second);
    var p1, p2 := Bare(s0), Plain(Graph({n}, map[]), None);
    assert PlainApply(p1, first) == p1 && PlainApply(p1, second) == p2;
    var all, rest, last := [first, second, first], [second, first], [first];
    assert all[1..] == rest && rest[1..] == last && last[1..] == [];
    assert Run(s0, all) == Run(s2, last) == Apply(s2, first) == s2;
    assert PlainRun(p1, all) == PlainRun(p1, rest) == PlainRun(p2, last) == PlainApply(p2, first);
  }

  /** A node with one assertion about it, both cached, and then the node deleted with a failed
      lookup or a failed write: the assertion stays cached after it has left the graph, and its
      next insert is skipped. */
  lemma UnfinishedDeletionIsStale(a: Id, n: Id, subjectsFound: bool, targetsFound: bool, writes: nat)
    requires writes >= 1 && (!subjectsFound || writes < 3)
    ensures var e := Ends(n, None);
            var s := State(Graph({n}, map[a := Links({n}, {})]), None, {n}, {a}, [], []);
            var deleted := Apply(s, DeleteNodes({n}, subjectsFound, targetsFound, writes));
            && Coherent(s, NoFacts()) && !Safe(s, NoFacts(), DeleteNodes({n}, subjectsFound, targetsFound, writes))
            && a in CachedAssertions(deleted) && a !in deleted.graph.assertions
            && Apply(Apply(deleted, InsertNode(n)), InsertAssertion(a, e)).graph.assertions == map[]
  {
    var g := Graph({n}, map[a := Links({n}, {})]);
    var s := State(g, None, {n}, {a}, [], []);
    var op := DeleteNodes({n}, subjectsFound, targetsFound, writes);
    assert BySubject(g, {n}) == {a} && ByTarget(g, {n}) == {} by { assert g.assertions[a].subjects * {n} == {n}; }
    assert PurgeSubjects(g, {n}).assertions == map[];
    var deleted := Apply(s, op);
    assert deleted.graph.assertions == map[] && CachedAssertions(deleted) == {a};
    assert a in CachedAssertions(s) * Attached(g, {n});
  }
}
