/** Parity between a snapshot and a rebuilt generation
    (mesa_storage/rebuild_cutover.py, ProjectionParityVerifier.verify). */
module Parity {
  import opened Wrappers
  import opened Replay

  function KeyOf(r: Row): Key {
    if r.Link? then r.source else r.key
  }

  /** The identities the checker looks up in a lane, in query order. */
  function Keys(rows: seq<Row>): (ks: seq<Key>)
    ensures |ks| == |rows| && forall i | 0 <= i < |rows| :: ks[i] == KeyOf(rows[i])
  {
    seq(|rows|, i requires 0 <= i < |rows| => KeyOf(rows[i]))
  }

  ghost predicate Distinct<T(!new)>(xs: seq<T>) {
    forall i, j | 0 <= i < j < |xs| :: xs[i] != xs[j]
  }

  function ToSet<T(==)>(xs: seq<T>): set<T> {
    set x | x in xs
  }

  lemma {:induction false} DistinctCardinality<T>(xs: seq<T>)
    ensures |ToSet(xs)| <= |xs|
    ensures |ToSet(xs)| == |xs| <==> forall i, j | 0 <= i < j < |xs| :: xs[i] != xs[j]
  {
    if xs != [] {
      var init, last := xs[..|xs| - 1], xs[|xs| - 1];
      DistinctCardinality(init);
      assert forall i | 0 <= i < |init| :: init[i] == xs[i];
      assert ToSet(xs) == ToSet(init) + {last};
      if last in init {
        assert ToSet(xs) == ToSet(init);
        var i :| 0 <= i < |init| && init[i] == last;
        assert xs[i] == xs[|xs| - 1];
      }
    }
  }

  /** The store's identities of one lane. */
  function Present(st: Store, lane: nat): set<Key>
    requires lane < 3
  {
    if lane == 0 then st.vectors.Keys else if lane == 1 then st.entities.Keys else st.assertions.Keys
  }

  datatype Report = Report(expected: seq<nat>, actual: seq<nat>, missing: nat, orphans: nat)

  datatype Error = InvalidBounds | Unhealthy | InvalidPage | Mismatch(report: Report)

  function Expected(s: Snapshot): (counts: seq<nat>)
    ensures |counts| == 4
  {
    [|Lane(s, 0)|, |Lane(s, 1)|, |Lane(s, 2)|, |Lane(s, 3)|]
  }

  /** The count probes; without a graph its three counts are zero. */
  function Actual(st: Store, s: Snapshot): (counts: seq<nat>)
    ensures |counts| == 4
  {
    if s.graphEnabled then [|st.vectors|, |st.entities|, |st.assertions|, |st.links|] else [|st.vectors|, 0, 0, 0]
  }

  function Excess(a: nat, b: nat): nat {
    if a > b then a - b else 0
  }

  /** What `b` lacks of `a`, position by position, added up. */
  function Shortfall(a: seq<nat>, b: seq<nat>): nat
    requires |a| == |b|
  {
    if a == [] then 0 else
      var n := |a| - 1;
      Shortfall(a[..n], b[..n]) + if b[n] < a[n] then a[n] - b[n] else 0
  }

  lemma {:induction false} NoShortfall(a: seq<nat>, b: seq<nat>)
    requires |a| == |b|
    ensures Shortfall(a, b) == 0 <==> forall i | 0 <= i < |a| :: a[i] <= b[i]
  {
    if a != [] {
      var n := |a| - 1;
      NoShortfall(a[..n], b[..n]);
      if forall i | 0 <= i < |a| :: a[i] <= b[i] {
        assert forall i | 0 <= i < n :: a[..n][i] <= b[..n][i];
      } else {
        var i :| 0 <= i < |a| && a[i] > b[i];
        assert i < n ==> a[..n][i] > b[..n][i];
      }
    }
  }

  /** Identity sets agree lane by lane, and the link counts agree. */
  ghost predicate Agrees(st: Store, s: Snapshot) {
    && (forall lane | 0 <= lane < 3 && (s.graphEnabled || lane == 0) ::
          Present(st, lane) == ToSet(Keys(Lane(s, lane))))
    && (s.graphEnabled ==> |st.links| == |Lane(s, 3)|)
  }

  /** The snapshot reader serves no page above 1000 rows. */
  predicate PageFits(s: Snapshot, limit: nat) {
    limit <= 1000 || (Lane(s, 0) == [] && Lane(s, 1) == [] && Lane(s, 2) == [])
  }

  // ---------------------------------------------------------------------------
  // Retrieval smoke searches
  // ---------------------------------------------------------------------------

  const SEARCH_LIMIT: nat := 50

  /** The vector engine: the ids it returns for a text among candidate vectors, given with the
      text each of them embeds. */
  type Search = (string, map<string, string>) -> set<string>

  /** It filters before it ranks, and leaves out candidates only above its limit. */
  ghost predicate IsSearch(search: Search) {
    forall text, candidates ::
      && search(text, candidates) <= candidates.Keys
      && (|candidates| <= SEARCH_LIMIT ==> search(text, candidates) == candidates.Keys)
  }

  /** allowed_vector_ids. */
  function Allowed(s: Snapshot, scope: Scope): set<string> {
    set e | e in s.registered && e.0 == scope :: e.1
  }

  /** The stored vectors that a search in the name of `agent` for `allowed` ids may return. */
  function Candidates(vectors: map<Key, string>, agent: string, allowed: set<string>): map<string, string> {
    map id | id in allowed && Key(agent, id) in vectors :: vectors[Key(agent, id)]
  }

  /** The smoke case finds its own vector. */
  predicate Found(s: Snapshot, vectors: map<Key, string>, search: Search, c: Case) {
    c.id in search(c.text, Candidates(vectors, c.scope.agent, Allowed(s, c.scope)))
  }

  /** The first `limit` smoke cases find theirs. */
  predicate SmokePasses(s: Snapshot, vectors: map<Key, string>, search: Search, limit: nat) {
    forall k | 0 <= k < limit && k < |s.cases| :: Found(s, vectors, search, s.cases[k])
  }

  ghost predicate Passes(s: Snapshot, st: Store, search: Search, smokeLimit: nat) {
    Agrees(st, s) && SmokePasses(s, st.vectors, search, smokeLimit)
  }

  /** retrieval_scopes. */
  function OfAgent(scopes: seq<Scope>, agent: string): seq<Scope> {
    if scopes == [] then [] else
      OfAgent(scopes[..|scopes| - 1], agent)
      + (if scopes[|scopes| - 1].agent == agent then [scopes[|scopes| - 1]] else [])
  }

  /** One case: its own search, then one search in the first scope of the agent that may not
      see it.  Neither scope failure of the source can arise. */
  method SmokeCase(s: Snapshot, vectors: map<Key, string>, search: Search, c: Case) returns (found: bool)
    requires IsSearch(search)
    ensures found == Found(s, vectors, search, c)
  {
    var allowed := Allowed(s, c.scope);
    var results := search(c.text, Candidates(vectors, c.scope.agent, allowed));
    if !(results <= allowed) { assert false; }
    found := c.id in results;
    var others := OfAgent(s.scopes, c.scope.agent);
    for i := 0 to if |others| < 100 then |others| else 100 {
      if others[i] != c.scope && c.id !in Allowed(s, others[i]) {
        var foreign := search(c.text, Candidates(vectors, c.scope.agent, Allowed(s, others[i])));
        if !(foreign <= Allowed(s, others[i])) || c.id in foreign { assert false; }
        break;
      }
    }
  }

  function FoundIn(s: Snapshot, vectors: map<Key, string>, search: Search): Case -> bool {
    c => Found(s, vectors, search, c)
  }

  /** How many of the cases are not found. */
  function Misses(cases: seq<Case>, found: Case -> bool): nat {
    if cases == [] then 0
    else Misses(cases[..|cases| - 1], found) + if found(cases[|cases| - 1]) then 0 else 1
  }

  lemma {:induction false} NoMisses(cases: seq<Case>, found: Case -> bool)
    ensures Misses(cases, found) == 0 <==> forall i | 0 <= i < |cases| :: found(cases[i])
  {
    if cases != [] {
      NoMisses(cases[..|cases| - 1], found);
      assert forall i | 0 <= i < |cases| - 1 :: cases[..|cases| - 1][i] == cases[i];
    }
  }

  /** The smoke cases within the limit. */
  function Chosen(s: Snapshot, limit: nat): seq<Case> {
    if |s.cases| < limit then s.cases else s.cases[..limit]
  }

  lemma SmokePassesIff(s: Snapshot, vectors: map<Key, string>, search: Search, limit: nat)
    ensures SmokePasses(s, vectors, search, limit) <==> Misses(Chosen(s, limit), FoundIn(s, vectors, search)) == 0
  {
    var cases, found := Chosen(s, limit), FoundIn(s, vectors, search);
    NoMisses(cases, found);
    assert forall k | 0 <= k < |cases| :: found(cases[k]) == Found(s, vectors, search, s.cases[k]);
  }

  lemma MissesNext(cases: seq<Case>, found: Case -> bool, k: nat)
    requires k < |cases|
    ensures Misses(cases[..k + 1], found) == Misses(cases[..k], found) + if found(cases[k]) then 0 else 1
  {
    assert cases[..k + 1][..k] == cases[..k];
  }

  /** The smoke loop counts the cases that do not find their vector. */
  method SmokeSearch(s: Snapshot, vectors: map<Key, string>, search: Search, limit: nat) returns (missing: nat)
    requires IsSearch(search)
    ensures missing == Misses(Chosen(s, limit), FoundIn(s, vectors, search))
  {
    missing := 0;
    var cases := Chosen(s, limit);
    ghost var goal := FoundIn(s, vectors, search);
    for k := 0 to |cases|
      invariant missing == Misses(cases[..k], goal)
    {
      var found := SmokeCase(s, vectors, search, cases[k]);
      MissesNext(cases, goal, k);
      if !found { missing := missing + 1; }
    }
    assert cases[..|cases|] == cases;
  }

  /** Where a dataset holds no more vectors than a search returns, a case is found exactly when
      it has a vector; elsewhere it must have one. */
  lemma FoundIff(s: Snapshot, vectors: map<Key, string>, search: Search, c: Case)
    requires IsSearch(search) && FromQueries(s) && c in s.cases
    ensures Found(s, vectors, search, c) ==> Key(c.scope.agent, c.id) in vectors
    ensures |Candidates(vectors, c.scope.agent, Allowed(s, c.scope))| <= SEARCH_LIMIT ==>
              (Found(s, vectors, search, c) <==> Key(c.scope.agent, c.id) in vectors)
  {
    assert (c.scope, c.id) in s.registered;
    assert c.id in Allowed(s, c.scope);
  }

  // ---------------------------------------------------------------------------
  // Looking identities up page by page and agent by agent
  // ---------------------------------------------------------------------------

  function Scoped(agent: string, ids: set<string>): set<Key> {
    set id | id in ids :: Key(agent, id)
  }

  lemma {:induction false} ScopedCardinality(agent: string, ids: set<string>)
    ensures |Scoped(agent, ids)| == |ids|
  {
    if ids != {} {
      var id :| id in ids;
      ScopedCardinality(agent, ids - {id});
      assert Scoped(agent, ids) == Scoped(agent, ids - {id}) + {Key(agent, id)};
    }
  }

  /** get_existing_node_ids: the requested ids this agent has. */
  function Lookup(present: set<Key>, agent: string, ids: seq<string>): set<string> {
    set id | id in ids && Key(agent, id) in present
  }

  function GroupedKeys(groups: map<string, seq<string>>): set<Key> {
    set a, id | a in groups && id in groups[a] :: Key(a, id)
  }

  /** by_agent.setdefault(agent, []).append(id) over a page. */
  method GroupByAgent(page: seq<Key>) returns (groups: map<string, seq<string>>)
    ensures GroupedKeys(groups) == ToSet(page)
  {
    groups := map[];
    for i := 0 to |page|
      invariant GroupedKeys(groups) == ToSet(page[..i])
    {
      var k := page[i];
      var before := groups;
      groups := groups[k.agent := (if k.agent in groups then groups[k.agent] else []) + [k.id]];
      assert page[..i + 1] == page[..i] + [k];
      assert GroupedKeys(groups) == GroupedKeys(before) + {k} by {
        forall x | x in GroupedKeys(before) + {k} ensures x in GroupedKeys(groups) {
          assert x.agent in groups && x.id in groups[x.agent];
        }
      }
    }
    assert page[..|page|] == page;
  }

  function OfAgents(ks: set<Key>, agents: set<string>): set<Key> {
    set k | k in ks && k.agent in agents
  }

  /** One page: whatever order the agents come in, the count is the number of identities
      of the page that the store lacks. */
  method CountMissing(page: seq<Key>, present: set<Key>) returns (missing: nat)
    ensures missing == |ToSet(page) - present|
  {
    var groups := GroupByAgent(page);
    ghost var lacking := ToSet(page) - present;
    missing := 0;
    var left := groups.Keys;
    assert OfAgents(lacking, groups.Keys - left) == {};
    while left != {}
      invariant left <= groups.Keys
      invariant missing == |OfAgents(lacking, groups.Keys - left)|
    {
      var agent :| agent in left;
      var absent := ToSet(groups[agent]) - Lookup(present, agent, groups[agent]);
      ScopedCardinality(agent, absent);
      AgentShare(groups, present, agent);
      assert OfAgents(lacking, groups.Keys - (left - {agent}))
             == OfAgents(lacking, groups.Keys - left) + Scoped(agent, absent);
      missing := missing + |absent|;
      left := left - {agent};
    }
    forall k | k in lacking ensures k.agent in groups { assert k in GroupedKeys(groups); }
    assert OfAgents(lacking, groups.Keys - left) == lacking;
  }

  lemma AgentShare(groups: map<string, seq<string>>, present: set<Key>, agent: string)
    requires agent in groups
    ensures Scoped(agent, ToSet(groups[agent]) - Lookup(present, agent, groups[agent]))
            == OfAgents(GroupedKeys(groups) - present, {agent})
  {
    var absent := ToSet(groups[agent]) - Lookup(present, agent, groups[agent]);
    forall k | k in OfAgents(GroupedKeys(groups) - present, {agent}) ensures k in Scoped(agent, absent) {
      assert k.id in absent;
    }
  }

  lemma PageAdds(done: seq<Key>, page: seq<Key>, present: set<Key>)
    requires ToSet(done) !! ToSet(page)
    ensures |ToSet(done + page) - present| == |ToSet(done) - present| + |ToSet(page) - present|
  {
    var a, b := ToSet(done) - present, ToSet(page) - present;
    assert ToSet(done + page) - present == a + b;
    assert |a + b| == |a| + |b|;
  }

  lemma PagesDisjoint(keys: seq<Key>, offset: nat, next: nat)
    requires Distinct(keys) && offset <= next <= |keys|
    ensures ToSet(keys[..offset]) !! ToSet(keys[offset..next])
  {
    forall k | k in ToSet(keys[..offset]) ensures k !in ToSet(keys[offset..next]) {
      var i :| 0 <= i < offset && keys[i] == k;
      forall j | offset <= j < next ensures keys[j] != k { assert keys[i] != keys[j]; }
    }
  }

  lemma PageStep(keys: seq<Key>, offset: nat, next: nat, present: set<Key>)
    requires Distinct(keys) && offset <= next <= |keys|
    ensures |ToSet(keys[..next]) - present|
            == |ToSet(keys[..offset]) - present| + |ToSet(keys[offset..next]) - present|
  {
    PagesDisjoint(keys, offset, next);
    PageAdds(keys[..offset], keys[offset..next], present);
    assert keys[..next] == keys[..offset] + keys[offset..next];
  }

  /** A whole lane in fixed pages: no identity is skipped or counted twice, for any page
      size the snapshot reader accepts. */
  method CountMissingInLane(keys: seq<Key>, present: set<Key>, limit: nat) returns (r: Result<nat, Error>)
    requires Distinct(keys) && limit >= 1
    ensures r.Success? <==> limit <= 1000 || keys == []
    ensures r.Success? ==> r.value == |ToSet(keys) - present|
    ensures r.Failure? ==> r.error == InvalidPage
  {
    var missing := 0;
    var offset := 0;
    assert ToSet(keys[..0]) - present == {};
    while offset < |keys|
      invariant offset <= |keys|
      invariant offset > 0 ==> limit <= 1000
      invariant missing == |ToSet(keys[..offset]) - present|
    {
      if limit > 1000 { return Failure(InvalidPage); }
      var next := if |keys| - offset < limit then |keys| else offset + limit;
      var page := keys[offset..next];
      var found := CountMissing(page, present);
      PageStep(keys, offset, next, present);
      missing := missing + found;
      offset := next;
    }
    assert keys[..|keys|] == keys;
    return Success(missing);
  }

  // ---------------------------------------------------------------------------
  // The verdict
  // ---------------------------------------------------------------------------

  lemma EqualCardinality<T>(a: set<T>, b: set<T>)
    requires a <= b && |a| == |b|
    ensures a == b
  {
    assert |b - a| == |b| - |a|;
  }

  /** One lane: nothing missing and no surplus exactly when the identity sets are equal. */
  lemma LaneAgrees(keys: seq<Key>, present: set<Key>)
    requires Distinct(keys)
    ensures ToSet(keys) - present == {} && |keys| == |present| <==> present == ToSet(keys)
  {
    DistinctCardinality(keys);
    if ToSet(keys) - present == {} && |keys| == |present| {
      assert forall k | k in ToSet(keys) && k !in present :: k in ToSet(keys) - present;
      EqualCardinality(ToSet(keys), present);
    }
  }

  lemma LaneKeysDistinct(s: Snapshot, lane: nat)
    requires FromQueries(s) && lane < 3
    ensures Distinct(Keys(Lane(s, lane)))
  {
    forall i, j | 0 <= i < j < |Lane(s, lane)| ensures KeyOf(Lane(s, lane)[i]) != KeyOf(Lane(s, lane)[j]) {
      SameLaneKeys(s, lane, i, j);
    }
  }

  /** The report of a verification: `missing` adds up what the counts lack, the identities not
      found and the smoke cases that found nothing; `orphans` is what the counts have beyond. */
  ghost predicate IsReport(s: Snapshot, st: Store, search: Search, smokeLimit: nat, report: Report) {
    && report.expected == Expected(s) && report.actual == Actual(st, s)
    && report.missing == Shortfall(report.expected, report.actual) + Unfound(s, st, 3)
                         + Misses(Chosen(s, smokeLimit), FoundIn(s, st.vectors, search))
    && report.orphans == Shortfall(report.actual, report.expected)
  }

  lemma SameCounts(a: seq<nat>, b: seq<nat>)
    requires |a| == |b|
    ensures a == b <==> Shortfall(a, b) == 0 && Shortfall(b, a) == 0
  {
    NoShortfall(a, b);
    NoShortfall(b, a);
  }

  lemma AgreesIff(s: Snapshot, st: Store, expected: seq<nat>, actual: seq<nat>)
    requires FromQueries(s) && expected == Expected(s) && actual == Actual(st, s)
    ensures Agrees(st, s) <==>
              Shortfall(expected, actual) == 0 && Shortfall(actual, expected) == 0 && Unfound(s, st, 3) == 0
    ensures Agrees(st, s) ==> expected == actual
  {
    SameCounts(expected, actual);
    AllFoundIff(s, st, 3);
    CountsDecide(s, st);
  }

  lemma ReportDecides(s: Snapshot, st: Store, search: Search, smokeLimit: nat, report: Report)
    requires FromQueries(s) && IsReport(s, st, search, smokeLimit, report)
    ensures report.missing == 0 && report.orphans == 0 <==> Passes(s, st, search, smokeLimit)
    ensures Passes(s, st, search, smokeLimit) ==> report.expected == report.actual
  {
    AgreesIff(s, st, report.expected, report.actual);
    SmokePassesIff(s, st.vectors, search, smokeLimit);
  }

  /** The checks of one verification once the bounds and the health probes are passed. */
  method Compare(s: Snapshot, st: Store, search: Search, parityLimit: nat, smokeLimit: nat)
    returns (r: Result<Report, Error>)
    requires FromQueries(s) && IsSearch(search) && parityLimit >= 1
    ensures r.Success? <==> PageFits(s, parityLimit)
    ensures r.Success? ==> IsReport(s, st, search, smokeLimit, r.value)
    ensures r.Failure? ==> r.error == InvalidPage
  {
    var expected, actual := Expected(s), Actual(st, s);
    forall lane | 0 <= lane < 3 ensures Distinct(Keys(Lane(s, lane))) { LaneKeysDistinct(s, lane); }
    var ids :- CountMissingIds(s, st, parityLimit);
    var smoke := SmokeSearch(s, st.vectors, search, smokeLimit);
    var missing, orphans := CompareCounts(expected, actual);
    return Success(Report(expected, actual, missing + ids + smoke, orphans));
  }

  /** ProjectionParityVerifier.verify.  `healthy` stands for the health and count probes.  For
      every page size it passes exactly when the stores agree with the snapshot and each of the
      first smoke cases is found; its report is the same whether it passes or not. */
  method Verify(s: Snapshot, st: Store, search: Search, parityLimit: nat, smokeLimit: nat, healthy: bool)
    returns (r: Result<Report, Error>)
    requires FromQueries(s) && IsSearch(search)
    ensures r.Success? <==>
              && 1 <= parityLimit <= 10_000 && 1 <= smokeLimit <= 100 && healthy
              && PageFits(s, parityLimit) && Passes(s, st, search, smokeLimit)
    ensures r.Success? ==> r.value.missing == 0 && r.value.orphans == 0 && r.value.expected == r.value.actual
    ensures r.Failure? && r.error.Mismatch? ==>
              !Passes(s, st, search, smokeLimit) && IsReport(s, st, search, smokeLimit, r.error.report)
    ensures r.Success? ==> IsReport(s, st, search, smokeLimit, r.value)
    ensures r.Failure? && r.error.InvalidPage? ==> !PageFits(s, parityLimit)
    ensures r.Failure? && r.error.InvalidBounds? ==> !(1 <= parityLimit <= 10_000) || !(1 <= smokeLimit <= 100)
    ensures r.Failure? && r.error.Unhealthy? ==> !healthy
  {
    if !(1 <= parityLimit <= 10_000) || !(1 <= smokeLimit <= 100) { return Failure(InvalidBounds); }
    if !healthy { return Failure(Unhealthy); }
    var report :- Compare(s, st, search, parityLimit, smokeLimit);
    ReportDecides(s, st, search, smokeLimit, report);
    if report.missing == 0 && report.orphans == 0 {
      return Success(report);
    }
    return Failure(Mismatch(report));
  }

  /** A page size that the bounds accept and the snapshot reader refuses, on one vector. */
  method LargePageIsRefused(search: Search, k: Key) returns (r: Result<Report, Error>)
    requires IsSearch(search)
    ensures r == Failure(InvalidPage)
  {
    var s := Snapshot([Vector(k, "")], [], [], [], true, 0, 0, {}, [], {}, []);
    assert Lane(s, 0) == [Vector(k, "")];
    assert Passes(s, Image(s.vectors), search, 10) by {
      assert s.vectors[..0] == [] && Image([]) == EMPTY;
      assert Image(s.vectors) == ApplyRow(EMPTY, Vector(k, ""));
      assert Keys(Lane(s, 0)) == [k];
    }
    r := Verify(s, Image(s.vectors), search, 1001, 10, true);
  }

  method CountMissingIds(s: Snapshot, st: Store, limit: nat) returns (r: Result<nat, Error>)
    requires limit >= 1 && forall lane | 0 <= lane < 3 :: Distinct(Keys(Lane(s, lane)))
    ensures r.Success? <==> PageFits(s, limit)
    ensures r.Success? ==> r.value == Unfound(s, st, 3)
    ensures r.Failure? ==> r.error == InvalidPage
  {
    var ids := 0;
    for lane := 0 to 3
      invariant forall l | 0 <= l < lane :: limit <= 1000 || Lane(s, l) == []
      invariant ids == Unfound(s, st, lane)
    {
      assert Distinct(Keys(Lane(s, lane)));
      var missing :- CountMissingInLane(Keys(Lane(s, lane)), Present(st, lane), limit);
      ids := ids + missing;
    }
    return Success(ids);
  }

  /** The count columns of the report: `missing` is what the actual counts lack of the expected
      ones, `orphans` what they have beyond them, lane by lane. */
  method CompareCounts(expected: seq<nat>, actual: seq<nat>) returns (missing: nat, orphans: nat)
    requires |expected| == |actual|
    ensures missing == Shortfall(expected, actual) && orphans == Shortfall(actual, expected)
    ensures missing == 0 && orphans == 0 <==> expected == actual
  {
    missing, orphans := 0, 0;
    for lane := 0 to |expected|
      invariant missing == Shortfall(expected[..lane], actual[..lane])
      invariant orphans == Shortfall(actual[..lane], expected[..lane])
    {
      ShortfallNext(expected, actual, lane);
      ShortfallNext(actual, expected, lane);
      missing := missing + Excess(expected[lane], actual[lane]);
      orphans := orphans + Excess(actual[lane], expected[lane]);
    }
    assert expected[..|expected|] == expected && actual[..|actual|] == actual;
    NoShortfall(expected, actual);
    NoShortfall(actual, expected);
  }

  lemma ShortfallNext(a: seq<nat>, b: seq<nat>, n: nat)
    requires |a| == |b| && n < |a|
    ensures Shortfall(a[..n + 1], b[..n + 1]) == Shortfall(a[..n], b[..n]) + if b[n] < a[n] then a[n] - b[n] else 0
  {
    assert a[..n + 1][..n] == a[..n] && b[..n + 1][..n] == b[..n];
  }

  /** The identities of the first lanes that the store lacks. */
  ghost function Unfound(s: Snapshot, st: Store, lanes: nat): nat
    requires lanes <= 3
  {
    if lanes == 0 then 0
    else Unfound(s, st, lanes - 1) + |ToSet(Keys(Lane(s, lanes - 1))) - Present(st, lanes - 1)|
  }

  lemma EmptyIff<T>(x: set<T>)
    ensures |x| == 0 <==> x == {}
  {
  }

  lemma {:induction false} AllFoundIff(s: Snapshot, st: Store, lanes: nat)
    requires lanes <= 3
    ensures Unfound(s, st, lanes) == 0 <==> AllFound(s, st, lanes)
  {
    if lanes > 0 {
      AllFoundIff(s, st, lanes - 1);
      EmptyIff(ToSet(Keys(Lane(s, lanes - 1))) - Present(st, lanes - 1));
      assert AllFound(s, st, lanes) <==> AllFound(s, st, lanes - 1) && LaneFound(s, st, lanes - 1);
    }
  }

  ghost predicate LaneFound(s: Snapshot, st: Store, lane: nat)
    requires lane < 3
  {
    ToSet(Keys(Lane(s, lane))) - Present(st, lane) == {}
  }

  ghost predicate AllFound(s: Snapshot, st: Store, lanes: nat)
    requires lanes <= 3
  {
    forall l | 0 <= l < lanes :: LaneFound(s, st, l)
  }

  lemma LaneDecides(s: Snapshot, st: Store, lane: nat)
    requires FromQueries(s) && lane < 3
    ensures Distinct(Keys(Lane(s, lane)))
    ensures LaneFound(s, st, lane) && |Lane(s, lane)| == |Present(st, lane)|
            <==> Present(st, lane) == ToSet(Keys(Lane(s, lane)))
    ensures !s.graphEnabled && lane > 0 ==> LaneFound(s, st, lane)
  {
    LaneKeysDistinct(s, lane);
    LaneAgrees(Keys(Lane(s, lane)), Present(st, lane));
  }

  lemma CountsDecide(s: Snapshot, st: Store)
    requires FromQueries(s)
    ensures forall lane | 0 <= lane < 3 :: Distinct(Keys(Lane(s, lane)))
    ensures Agrees(st, s) <==> AllFound(s, st, 3) && Expected(s) == Actual(st, s)
  {
    LaneDecides(s, st, 0);
    LaneDecides(s, st, 1);
    LaneDecides(s, st, 2);
    ListsDecide(s, st);
  }

  lemma ListsDecide(s: Snapshot, st: Store)
    ensures Expected(s) == Actual(st, s) <==> (
      && |Lane(s, 0)| == |Present(st, 0)|
      && (s.graphEnabled ==>
            |Lane(s, 1)| == |Present(st, 1)| && |Lane(s, 2)| == |Present(st, 2)| && |Lane(s, 3)| == |st.links|))
  {
    var e, a := Expected(s), Actual(st, s);
    assert e == a <==> e[0] == a[0] && e[1] == a[1] && e[2] == a[2] && e[3] == a[3];
  }

  // ---------------------------------------------------------------------------
  // From replay to parity
  // ---------------------------------------------------------------------------

  function Pairs(links: seq<Row>): (ps: seq<(Key, Key)>)
    requires forall i | 0 <= i < |links| :: links[i].Link?
    ensures |ps| == |links| && forall i | 0 <= i < |links| :: ps[i] == (links[i].source, links[i].target)
  {
    seq(|links|, i requires 0 <= i < |links| => (links[i].source, links[i].target))
  }

  /** The ordered pairs that the snapshot links. */
  function LinkedPairs(s: Snapshot): (ps: seq<(Key, Key)>)
    requires FromQueries(s)
    ensures |ps| == |Lane(s, 3)|
  {
    Pairs(Lane(s, 3))
  }

  /** A row of the sequence, found in its lane. */
  lemma RowInLane(s: Snapshot, r: Row) returns (lane: nat, i: nat)
    requires FromQueries(s) && r in Rows(s)
    ensures lane < 4 && i < |Lane(s, lane)| && Lane(s, lane)[i] == r
    ensures && r.Vector? == (lane == 0) && r.Entity? == (lane == 1)
            && r.Assertion? == (lane == 2) && r.Link? == (lane == 3)
  {
    var n :| 0 <= n < |Rows(s)| && Rows(s)[n] == r;
    lane, i := LaneOf(s, n);
    LaneKind(s, lane, i);
  }

  lemma LaneRowCovered(s: Snapshot, st: Store, lane: nat, i: nat)
    requires FromQueries(s) && lane < 4 && i < |Lane(s, lane)| && Complete(st, Rows(s))
    ensures lane < 3 ==> KeyOf(Lane(s, lane)[i]) in Present(st, lane)
    ensures lane == 3 ==> Lane(s, 3)[i].Link? && (Lane(s, 3)[i].source, Lane(s, 3)[i].target) in st.links
  {
    RowAt(s, lane, i);
    LaneKind(s, lane, i);
    assert Covers(st, Rows(s)[Base(s, lane) + i]);
  }

  lemma PresentIsInLane(s: Snapshot, st: Store, lane: nat, k: Key) returns (i: nat)
    requires FromQueries(s) && lane < 3 && Sourced(st, Rows(s)) && k in Present(st, lane)
    ensures i < |Lane(s, lane)| && KeyOf(Lane(s, lane)[i]) == k
  {
    var r: Row;
    if lane == 0 { r := Vector(k, st.vectors[k]); }
    else if lane == 1 { r := Entity(k, st.entities[k]); }
    else {
      assert NodeRow(Rows(s), k, st.assertions[k]);
      r :| r in Rows(s) && r.Assertion? && r.key == k;
    }
    var l;
    l, i := RowInLane(s, r);
  }

  lemma ReplayedLane(s: Snapshot, st: Store, lane: nat)
    requires FromQueries(s) && lane < 3
    requires Sourced(st, Rows(s)) && Complete(st, Rows(s))
    ensures Present(st, lane) == ToSet(Keys(Lane(s, lane)))
  {
    var keys := Keys(Lane(s, lane));
    forall k | k in keys ensures k in Present(st, lane) {
      var i :| 0 <= i < |keys| && keys[i] == k;
      LaneRowCovered(s, st, lane, i);
    }
    forall k | k in Present(st, lane) ensures k in keys {
      var i := PresentIsInLane(s, st, lane, k);
      assert keys[i] == k;
    }
  }

  lemma ReplayedLinks(s: Snapshot, st: Store)
    requires FromQueries(s)
    requires Sourced(st, Rows(s)) && Complete(st, Rows(s))
    ensures st.links.Keys == ToSet(LinkedPairs(s))
  {
    var pairs := LinkedPairs(s);
    forall p | p in pairs ensures p in st.links {
      var i :| 0 <= i < |pairs| && pairs[i] == p;
      LaneRowCovered(s, st, 3, i);
    }
    forall p | p in st.links ensures p in pairs {
      var l, i := RowInLane(s, Link(p.0, p.1, st.links[p]));
      assert pairs[i] == p;
    }
  }

  lemma ParallelMeansRepeated(s: Snapshot)
    requires FromQueries(s) && ParallelLinks(Rows(s))
    ensures !Distinct(LinkedPairs(s))
  {
    var pairs := LinkedPairs(s);
    var a, b :| a in Rows(s) && b in Rows(s) && a.Link? && b.Link?
                && a.source == b.source && a.target == b.target && a.relation != b.relation;
    var la, i := RowInLane(s, a);
    var lb, j := RowInLane(s, b);
    assert pairs[i] == pairs[j] && i != j;
  }

  lemma RowAmong(s: Snapshot, i: nat)
    requires i < |Lane(s, 3)|
    ensures Lane(s, 3)[i] in Rows(s)
  {
    RowAt(s, 3, i);
  }

  lemma LinksDiffer(s: Snapshot, i: nat, j: nat)
    requires FromQueries(s) && i < j < |Lane(s, 3)|
    ensures Lane(s, 3)[i].Link? && Lane(s, 3)[j].Link? && Lane(s, 3)[i] != Lane(s, 3)[j]
  {
  }

  lemma RepeatedMeansParallel(s: Snapshot, i: nat, j: nat)
    requires FromQueries(s) && i < j < |Lane(s, 3)| && LinkedPairs(s)[i] == LinkedPairs(s)[j]
    ensures ParallelLinks(Rows(s))
  {
    RowAmong(s, i);
    RowAmong(s, j);
    LinksDiffer(s, i, j);
  }

  lemma PairsDistinct(s: Snapshot)
    requires FromQueries(s)
    ensures Distinct(LinkedPairs(s)) <==> !ParallelLinks(Rows(s))
  {
    if ParallelLinks(Rows(s)) {
      ParallelMeansRepeated(s);
    } else {
      forall i, j | 0 <= i < j < |Lane(s, 3)| ensures LinkedPairs(s)[i] != LinkedPairs(s)[j] {
        if LinkedPairs(s)[i] == LinkedPairs(s)[j] { RepeatedMeansParallel(s, i, j); }
      }
    }
  }

  lemma CountOfKeys(links: map<(Key, Key), string>, pairs: seq<(Key, Key)>)
    requires links.Keys == ToSet(pairs)
    ensures |links| == |pairs| <==> Distinct(pairs)
  {
    assert |links| == |links.Keys|;
    DistinctCardinality(pairs);
  }

  lemma LinksCounted(s: Snapshot, st: Store)
    requires FromQueries(s) && Sourced(st, Rows(s)) && Complete(st, Rows(s))
    ensures |st.links| == |Lane(s, 3)| <==> Distinct(LinkedPairs(s))
  {
    ReplayedLinks(s, st);
    CountOfKeys(st.links, LinkedPairs(s));
  }

  lemma LinkCount(s: Snapshot, st: Store)
    requires FromQueries(s) && Sourced(st, Rows(s)) && Complete(st, Rows(s))
    ensures |st.links| == |Lane(s, 3)| <==> !ParallelLinks(Rows(s))
  {
    LinksCounted(s, st);
    PairsDistinct(s);
  }

  lemma LanesAgree(s: Snapshot, st: Store)
    requires FromQueries(s) && Sourced(st, Rows(s)) && Complete(st, Rows(s))
    ensures forall lane | 0 <= lane < 3 :: Present(st, lane) == ToSet(Keys(Lane(s, lane)))
  {
    forall lane | 0 <= lane < 3 ensures Present(st, lane) == ToSet(Keys(Lane(s, lane))) {
      ReplayedLane(s, st, lane);
    }
  }

  lemma ExactStoreAgrees(s: Snapshot, st: Store)
    requires FromQueries(s) && Sourced(st, Rows(s)) && Complete(st, Rows(s))
    ensures Agrees(st, s) <==> !ParallelLinks(Rows(s))
  {
    LanesAgree(s, st);
    if s.graphEnabled {
      LinkCount(s, st);
    } else {
      PairsDistinct(s);
      assert LinkedPairs(s) == [];
    }
  }

  /** The vectors that the rows ask for. */
  function VectorsOf(rows: seq<Row>): map<Key, string> {
    if rows == [] then map[] else
      var r, before := rows[|rows| - 1], VectorsOf(rows[..|rows| - 1]);
      if r.Vector? then before[r.key := r.payload] else before
  }

  lemma {:induction false} VectorsAlone(a: seq<Row>, b: seq<Row>)
    requires forall r | r in b :: !r.Vector?
    ensures VectorsOf(a + b) == VectorsOf(a)
    decreases |b|
  {
    if b == [] {
      assert a + b == a;
    } else {
      assert (a + b)[..|a + b| - 1] == a + b[..|b| - 1];
      assert b[|b| - 1] in b;
      VectorsAlone(a, b[..|b| - 1]);
    }
  }

  lemma {:induction false} ImageVectors(rows: seq<Row>)
    ensures Image(rows).vectors == VectorsOf(rows)
  {
    if rows != [] { ImageVectors(rows[..|rows| - 1]); }
  }

  /** A finished replay embeds exactly the vector rows. */
  lemma ReplayedVectors(s: Snapshot)
    requires FromQueries(s)
    ensures Image(Rows(s)).vectors == VectorsOf(s.vectors)
  {
    ImageVectors(Rows(s));
    var others := Lane(s, 1) + (Lane(s, 2) + Lane(s, 3));
    forall r | r in others ensures !r.Vector? { }
    VectorsAlone(s.vectors, others);
  }

  /** Every one of the first smoke cases will find its vector among the vector rows. */
  predicate Retrievable(s: Snapshot, search: Search, limit: nat) {
    SmokePasses(s, VectorsOf(s.vectors), search, limit)
  }

  lemma {:induction false} VectorsAmong(rows: seq<Row>, k: Key)
    ensures k in VectorsOf(rows) <==> VectorAmong(rows, k)
  {
    if rows != [] {
      var init, r := rows[..|rows| - 1], rows[|rows| - 1];
      VectorsAmong(init, k);
      assert forall x :: x in rows <==> x in init || x == r;
      if r.Vector? && r.key == k { assert VectorAmong(rows, k); }
      if VectorAmong(init, k) {
        var x :| x in init && x.Vector? && x.key == k;
        assert x in rows;
      }
    }
  }

  /** Each of the first cases has a row in the vector lane. */
  ghost predicate CasesAreRows(s: Snapshot, limit: nat) {
    forall k | 0 <= k < limit && k < |s.cases| :: VectorAmong(s.vectors, Key(s.cases[k].scope.agent, s.cases[k].id))
  }

  /** No dataset of the first cases holds more vectors than a search returns. */
  predicate SmallScopes(s: Snapshot, limit: nat) {
    forall k | 0 <= k < limit && k < |s.cases| ::
      |Candidates(VectorsOf(s.vectors), s.cases[k].scope.agent, Allowed(s, s.cases[k].scope))| <= SEARCH_LIMIT
  }

  /** The smoke searches need a vector row for every case, and in small datasets no more.  An
      assertion's case has one; an entity vector has none, unless an assertion of its agent has
      the same id. */
  lemma RetrievableIff(s: Snapshot, search: Search, limit: nat)
    requires FromQueries(s) && IsSearch(search)
    ensures Retrievable(s, search, limit) ==> CasesAreRows(s, limit)
    ensures SmallScopes(s, limit) ==> (Retrievable(s, search, limit) <==> CasesAreRows(s, limit))
  {
    var vectors := VectorsOf(s.vectors);
    forall k | 0 <= k < limit && k < |s.cases|
      ensures Found(s, vectors, search, s.cases[k]) ==>
                VectorAmong(s.vectors, Key(s.cases[k].scope.agent, s.cases[k].id))
      ensures SmallScopes(s, limit) ==>
                (Found(s, vectors, search, s.cases[k]) <==>
                   VectorAmong(s.vectors, Key(s.cases[k].scope.agent, s.cases[k].id)))
    {
      FoundIff(s, vectors, search, s.cases[k]);
      VectorsAmong(s.vectors, Key(s.cases[k].scope.agent, s.cases[k].id));
    }
  }

  lemma ReplayedStoreAgrees(s: Snapshot)
    requires FromQueries(s) && Owned(s)
    ensures Agrees(Image(Rows(s)), s) <==> !ParallelLinks(Rows(s))
  {
    var rows := Rows(s);
    OwnedSnapshotIsReplayable(s);
    ImageIsExact(rows, |rows|);
    assert rows[..|rows|] == rows;
    ExactStoreAgrees(s, Image(rows));
  }

  /** What a finished replay leaves behind passes the verification exactly when no assertion
      pair carries two relations, which would leave the link count short, and every smoke case
      can be retrieved from the vector rows.  Otherwise the operation can never reach
      READY_TO_CUTOVER. */
  lemma ReplayedStorePassesIff(s: Snapshot, search: Search, limit: nat)
    requires FromQueries(s) && Owned(s)
    ensures Passes(s, Image(Rows(s)), search, limit) <==>
              !ParallelLinks(Rows(s)) && Retrievable(s, search, limit)
  {
    ReplayedStoreAgrees(s);
    ReplayedVectors(s);
  }

  lemma ParallelLinksFail(s: Snapshot)
    requires FromQueries(s) && Owned(s) && ParallelLinks(Rows(s))
    ensures !Agrees(Image(Rows(s)), s) && !IsProjection(Image(Rows(s)), Rows(s))
  {
    ReplayedStoreAgrees(s);
    OwnedSnapshotIsReplayable(s);
    FullReplayIsProjection(Rows(s));
  }

  /** A snapshot that passes every check and whose finished replay still fails parity. */
  lemma ParallelLinksFailParity(e: Key, a: Key, b: Key)
    requires a != b
    ensures var s := TwoRelations(e, a, b);
            && FromQueries(s) && Owned(s)
            && !Agrees(Image(Rows(s)), s) && !IsProjection(Image(Rows(s)), Rows(s))
  {
    ParallelLinksPass(e, a, b);
    ParallelLinksFail(TwoRelations(e, a, b));
  }

  /** One entity whose own name is embedded in a dataset, as project_v4_vector_entity does it. */
  function OneEntityVector(e: string, scope: Scope): Snapshot {
    Snapshot([], [Entity(Key(scope.agent, e), e)], [], [], true, 0, 0,
             {Signature(Some("p"), Some("m"), Some("v"), Some(1))},
             [Case(scope, e, e, true)], {(scope, e)}, [scope])
  }

  /** Such a snapshot passes every check before the verification. */
  lemma EntityVectorPasses(e: string, scope: Scope)
    ensures var s := OneEntityVector(e, scope);
            FromQueries(s) && Owned(s) && !ParallelLinks(Rows(s)) && (exists m :: Admitted(s, m))
  {
    var s := OneEntityVector(e, scope);
    assert Rows(s) == [Entity(Key(scope.agent, e), e)];
    ProvidedIff(s);
    var m :| Provided(s, m);
    assert Admitted(s, m);
  }

  lemma EntityVectorIsNoRow(e: string, scope: Scope, limit: nat)
    requires limit >= 1
    ensures !CasesAreRows(OneEntityVector(e, scope), limit)
  {
    var s := OneEntityVector(e, scope);
    assert s.cases[0] == Case(scope, e, e, true);
    assert !VectorAmong(s.vectors, Key(scope.agent, e));
  }

  /** Its replay is exact and parity agrees; but no replayed store ever passes the verification,
      because the vector lane leaves entity vectors out. */
  lemma EntityVectorIsNeverFound(e: string, scope: Scope, search: Search, limit: nat)
    requires IsSearch(search) && limit >= 1
    ensures var s := OneEntityVector(e, scope);
            && Agrees(Image(Rows(s)), s) && !Retrievable(s, search, limit)
            && !Passes(s, Image(Rows(s)), search, limit)
  {
    var s := OneEntityVector(e, scope);
    EntityVectorPasses(e, scope);
    EntityVectorIsNoRow(e, scope, limit);
    RetrievableIff(s, search, limit);
    ReplayedStoreAgrees(s);
    ReplayedStorePassesIff(s, search, limit);
  }
}
