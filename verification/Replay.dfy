/** Resumable replay of an immutable SQLite snapshot into an empty staging generation
    (mesa_storage/rebuild_replay.py over the merge semantics of vector_engine.py and
    kuzu_provider.py). */
module Replay {
  import opened Wrappers

  datatype Error = InvalidBatch | OwnershipError | CheckpointError | ProviderConflict | Stopped

  /** Store identities are scoped by agent: (node_id, agent_id) in the vector tables,
      "agent::id" in the graph. */
  datatype Key = Key(agent: string, id: string)

  datatype Row =
    | Vector(key: Key, payload: string)
    | Entity(key: Key, name: string)
    | Assertion(key: Key, subject: Key, obj: Option<Key>, node: string)
    | Link(source: Key, target: Key, relation: string)

  /** `vectors` keeps the embedded payload: the embedding and its content hash are
      functions of it. */
  datatype Store = Store(
    vectors: map<Key, string>,
    entities: map<Key, string>,
    assertions: map<Key, string>,
    subjectOf: set<(Key, Key)>,
    objectOf: set<(Key, Key)>,
    links: map<(Key, Key), string>)

  const EMPTY := Store(map[], map[], map[], {}, {}, map[])

  /** The embedding identity that a source mutation recorded; every column may be null. */
  datatype Signature = Signature(
    provider: Option<string>, model: Option<string>, version: Option<string>, dimension: Option<int>)

  datatype Scope = Scope(tenant: string, agent: string, dataset: string)

  /** A retrieval smoke case: an active vector artifact of one dataset and the text to search
      it by.  `entity` tells entity vectors from assertion vectors. */
  datatype Case = Case(scope: Scope, id: string, text: string, entity: bool)

  /** What the replay and the parity check read from the backup: the four ordered queries, the
      counts of bad links in the whole link table, the embedding identities, the smoke cases in
      query order, the vector artifacts registered under each scope, and the scopes. */
  datatype Snapshot = Snapshot(
    vectors: seq<Row>, entities: seq<Row>, assertions: seq<Row>, links: seq<Row>,
    graphEnabled: bool, unknownRelations: nat, crossScopeLinks: nat,
    signatures: set<Signature>,
    cases: seq<Case>, registered: set<(Scope, string)>, scopes: seq<Scope>)

  function Lane(s: Snapshot, lane: nat): seq<Row>
    requires lane < 4
  {
    if lane == 0 then s.vectors
    else if !s.graphEnabled then []
    else if lane == 1 then s.entities
    else if lane == 2 then s.assertions
    else s.links
  }

  /** Every row to replay, in lane order. */
  function Rows(s: Snapshot): seq<Row> {
    Lane(s, 0) + (Lane(s, 1) + (Lane(s, 2) + Lane(s, 3)))
  }

  function Base(s: Snapshot, lane: nat): nat
    requires lane <= 4
  {
    if lane == 0 then 0 else Base(s, lane - 1) + |Lane(s, lane - 1)|
  }

  ghost predicate EntityAmong(rows: seq<Row>, k: Key) {
    exists r :: r in rows && r.Entity? && r.key == k
  }

  ghost predicate AssertionAmong(rows: seq<Row>, k: Key) {
    exists r :: r in rows && r.Assertion? && r.key == k
  }

  ghost predicate VectorAmong(rows: seq<Row>, k: Key) {
    exists r :: r in rows && r.Vector? && r.key == k
  }

  /** The relations that the ownership check knows. */
  predicate KnownRelation(relation: string) {
    relation == "CONTRADICTS" || relation == "SUPERSEDES"
  }

  /** What the queries themselves guarantee: DISTINCT over primary keys makes identities
      unique, the link query joins both of its assertions and reads from the table whose
      relations are counted, and a smoke case is registered under its scope and, when it is an
      assertion's, selected by the vector query as well. */
  ghost predicate FromQueries(s: Snapshot) {
    && (forall i | 0 <= i < |s.vectors| :: s.vectors[i].Vector?)
    && (forall i | 0 <= i < |s.entities| :: s.entities[i].Entity?)
    && (forall i | 0 <= i < |s.assertions| :: s.assertions[i].Assertion?)
    && (forall i | 0 <= i < |s.links| :: s.links[i].Link?)
    && (forall i, j | 0 <= i < j < |s.vectors| :: s.vectors[i].key != s.vectors[j].key)
    && (forall i, j | 0 <= i < j < |s.entities| :: s.entities[i].key != s.entities[j].key)
    && (forall i, j | 0 <= i < j < |s.assertions| :: s.assertions[i].key != s.assertions[j].key)
    && (forall i, j | 0 <= i < j < |s.links| :: s.links[i] != s.links[j])
    && (forall i | 0 <= i < |s.links| ::
          AssertionAmong(s.assertions, s.links[i].source) && AssertionAmong(s.assertions, s.links[i].target))
    && (s.unknownRelations == 0 ==> forall i | 0 <= i < |s.links| :: KnownRelation(s.links[i].relation))
    && (forall c | c in s.cases ::
          (c.scope, c.id) in s.registered && (!c.entity ==> VectorAmong(s.vectors, Key(c.scope.agent, c.id))))
  }

  predicate HasEntity(s: Snapshot, k: Key) {
    exists j :: 0 <= j < |s.entities| && s.entities[j].Entity? && s.entities[j].key == k
  }

  /** validate_ownership: it looks at the whole snapshot even when the graph is disabled. */
  predicate Owned(s: Snapshot) {
    && (forall i | 0 <= i < |s.assertions| && s.assertions[i].Assertion? ::
          && HasEntity(s, s.assertions[i].subject)
          && (s.assertions[i].obj.Some? ==> HasEntity(s, s.assertions[i].obj.value)))
    && s.unknownRelations == 0
    && s.crossScopeLinks == 0
  }

  /** The embedding space a rebuild is to be made in. */
  datatype Manifest = Manifest(
    provider: Option<string>, model: Option<string>, version: Option<string>, dimension: Option<int>,
    hasSpace: bool)

  predicate IsWhole(g: Signature) {
    g.provider.Some? && g.model.Some? && g.version.Some? && g.dimension.Some? && g.dimension.value > 0
  }

  predicate Named(text: Option<string>) {
    text.Some? && text.value != ""
  }

  /** _expected_provider_signature. */
  function ExpectedSignature(m: Manifest): Result<Signature, Error> {
    if Named(m.provider) && Named(m.model) && Named(m.version) && m.dimension.Some? && m.dimension.value > 0 then
      Success(Signature(m.provider, m.model, m.version, m.dimension))
    else
      Failure(ProviderConflict)
  }

  /** _validate_provider: the identities in the source must be whole; unless the manifest names
      its own space they must also be one, and the manifest's. */
  function ValidateProvider(s: Snapshot, m: Manifest): Result<Option<Signature>, Error> {
    if s.signatures == {} then Success(None)
    else if exists g :: g in s.signatures && !IsWhole(g) then Failure(ProviderConflict)
    else
      var expected :- ExpectedSignature(m);
      if !m.hasSpace && s.signatures != {expected} then Failure(ProviderConflict) else Success(Some(expected))
  }

  /** A replay under this manifest is not refused for its provider: a vector row needs one. */
  predicate Provided(s: Snapshot, m: Manifest) {
    && ValidateProvider(s, m).Success?
    && (s.vectors != [] ==> ValidateProvider(s, m).value.Some?)
  }

  /** There is a manifest to replay under exactly when all identities are whole, and there is one
      if anything is to be embedded. */
  lemma ProvidedIff(s: Snapshot)
    ensures (exists m :: Provided(s, m)) <==>
              (forall g | g in s.signatures :: IsWhole(g)) && (s.vectors != [] ==> s.signatures != {})
  {
    if (forall g | g in s.signatures :: IsWhole(g)) && (s.vectors != [] ==> s.signatures != {}) {
      var m := Manifest(Some("p"), Some("m"), Some("v"), Some(1), true);
      assert Provided(s, m);
    }
  }

  /** The parts of an identity are all there, and the dimension counts something. */
  predicate NothingMissing(g: Signature) {
    g.provider != None && g.model != None && g.version != None && g.dimension != None && g.dimension.value >= 1
  }

  /** No identity means no provider is needed.  Otherwise every identity of the source must be
      complete and so must the manifest, names included; and a manifest without a space of its
      own must name the only identity there is. */
  lemma AcceptedIff(s: Snapshot, m: Manifest)
    ensures ValidateProvider(s, m) == Success(None) <==> s.signatures == {}
    ensures var named := Signature(m.provider, m.model, m.version, m.dimension);
            ValidateProvider(s, m) == Success(Some(named)) <==>
              && s.signatures != {} && (forall g | g in s.signatures :: NothingMissing(g)) && NothingMissing(named)
              && m.provider != Some("") && m.model != Some("") && m.version != Some("")
              && (!m.hasSpace ==> s.signatures == {named})
    ensures ValidateProvider(s, m).Success? && s.signatures != {} ==>
              ValidateProvider(s, m).value == Some(Signature(m.provider, m.model, m.version, m.dimension))
  {
    assert forall g | g in s.signatures :: IsWhole(g) <==> NothingMissing(g);
  }

  /** Some assertion has `k` as an end, and no entity does. */
  ghost predicate Dangling(s: Snapshot, a: Row, k: Key) {
    && a in s.assertions && a.Assertion? && (k == a.subject || a.obj == Some(k))
    && forall e | e in s.entities && e.Entity? :: e.key != k
  }

  /** One unknown relation, one link across scopes or one absent end refuses the snapshot, and
      nothing else does. */
  lemma UnownedIff(s: Snapshot)
    ensures !Owned(s) <==>
              s.unknownRelations > 0 || s.crossScopeLinks > 0 || exists a, k :: Dangling(s, a, k)
  {
    if a, k :| Dangling(s, a, k) {
      var i :| 0 <= i < |s.assertions| && s.assertions[i] == a;
      assert !HasEntity(s, k);
    }
    if i :| 0 <= i < |s.assertions| && s.assertions[i].Assertion? && !HasEntity(s, s.assertions[i].subject) {
      Absent(s, s.assertions[i], s.assertions[i].subject);
    }
    if i :| 0 <= i < |s.assertions| && s.assertions[i].Assertion? && s.assertions[i].obj.Some?
            && !HasEntity(s, s.assertions[i].obj.value) {
      Absent(s, s.assertions[i], s.assertions[i].obj.value);
    }
  }

  lemma Absent(s: Snapshot, a: Row, k: Key)
    requires !HasEntity(s, k) && a in s.assertions && a.Assertion? && (k == a.subject || a.obj == Some(k))
    ensures Dangling(s, a, k)
  {
  }

  /** What the replayer checks before it writes anything. */
  predicate Admitted(s: Snapshot, m: Manifest) {
    Owned(s) && Provided(s, m)
  }

  predicate EndpointsPresent(st: Store, r: Row) {
    match r
    case Assertion(_, subject, obj, _) =>
      subject in st.entities && (obj.Some? ==> obj.value in st.entities)
    case Link(source, target, _) => source in st.assertions && target in st.assertions
    case _ => true
  }

  /** One store write.  MERGE creates only what is absent, and a MATCH that finds no
      endpoint silently does nothing. */
  function ApplyRow(st: Store, r: Row): Store {
    match r
    case Vector(k, payload) => st.(vectors := st.vectors[k := payload])
    case Entity(k, name) => if k in st.entities then st else st.(entities := st.entities[k := name])
    case Assertion(k, subject, obj, node) =>
      if !EndpointsPresent(st, r) then st
      else st.(assertions := if k in st.assertions then st.assertions else st.assertions[k := node],
               subjectOf := st.subjectOf + {(k, subject)},
               objectOf := if obj.Some? then st.objectOf + {(k, obj.value)} else st.objectOf)
    case Link(source, target, relation) =>
      if !EndpointsPresent(st, r) || (source, target) in st.links then st
      else st.(links := st.links[(source, target) := relation])
  }

  /** Nothing of the graph `before` is changed or taken away. */
  ghost predicate Keeps(before: Store, after: Store) {
    && (forall k | k in before.entities :: k in after.entities && after.entities[k] == before.entities[k])
    && (forall k | k in before.assertions :: k in after.assertions && after.assertions[k] == before.assertions[k])
    && (forall l | l in before.links :: l in after.links && after.links[l] == before.links[l])
    && before.subjectOf <= after.subjectOf && before.objectOf <= after.objectOf
  }

  /** A vector is overwritten; in the graph nothing that is there is changed or taken away. */
  lemma GraphWritesOnlyAdd(st: Store, r: Row)
    ensures Keeps(st, ApplyRow(st, r))
    ensures ApplyRow(st, r).vectors == if r.Vector? then st.vectors[r.key := r.payload] else st.vectors
  {
    match r
    case Vector(_, _) => assert ApplyRow(st, r) == st.(vectors := ApplyRow(st, r).vectors);
    case Entity(_, _) => assert ApplyRow(st, r) == st.(entities := ApplyRow(st, r).entities);
    case Assertion(_, _, _, _) =>
    case Link(_, _, _) => assert ApplyRow(st, r) == st.(links := ApplyRow(st, r).links);
  }

  /** Nothing at all is written for a row one of whose endpoints is missing. */
  lemma AbsentEndpointWritesNothing(st: Store, r: Row)
    requires || (r.Assertion? && (r.subject !in st.entities || (r.obj.Some? && r.obj.value !in st.entities)))
             || (r.Link? && (r.source !in st.assertions || r.target !in st.assertions))
    ensures ApplyRow(st, r) == st
  {
  }

  function Image(rows: seq<Row>): Store {
    if rows == [] then EMPTY else ApplyRow(Image(rows[..|rows| - 1]), rows[|rows| - 1])
  }

  // ---------------------------------------------------------------------------
  // Re-applying rows
  // ---------------------------------------------------------------------------

  /** The row's effect is already in the store. */
  predicate Covers(st: Store, r: Row) {
    match r
    case Vector(k, payload) => k in st.vectors && st.vectors[k] == payload
    case Entity(k, name) => k in st.entities && st.entities[k] == name
    case Assertion(k, subject, obj, node) =>
      && EndpointsPresent(st, r)
      && k in st.assertions && st.assertions[k] == node
      && (k, subject) in st.subjectOf
      && (obj.Some? ==> (k, obj.value) in st.objectOf)
    case Link(source, target, _) => EndpointsPresent(st, r) && (source, target) in st.links
  }

  /** Two rows that would write different content under one identity. */
  predicate Clash(a: Row, b: Row) {
    || (a.Vector? && b.Vector? && a.key == b.key && a.payload != b.payload)
    || (a.Entity? && b.Entity? && a.key == b.key && a.name != b.name)
    || (a.Assertion? && b.Assertion? && a.key == b.key && a.node != b.node)
  }

  lemma CoverageSurvives(st: Store, a: Row, b: Row)
    requires Covers(st, a) && !Clash(a, b)
    ensures Covers(ApplyRow(st, b), a)
  {
  }

  lemma CoveredIsNoOp(st: Store, r: Row)
    requires Covers(st, r)
    ensures ApplyRow(st, r) == st
  {
  }

  ghost predicate Compatible(rows: seq<Row>) {
    forall a, b | a in rows && b in rows :: !Clash(a, b)
  }

  // ---------------------------------------------------------------------------
  // The image of a row sequence is its projection
  // ---------------------------------------------------------------------------

  ghost predicate NodeRow(rows: seq<Row>, k: Key, node: string) {
    exists r :: r in rows && r.Assertion? && r.key == k && r.node == node
  }

  ghost predicate SubjectRow(rows: seq<Row>, k: Key, subject: Key) {
    exists r :: r in rows && r.Assertion? && r.key == k && r.subject == subject
  }

  ghost predicate ObjectRow(rows: seq<Row>, k: Key, obj: Key) {
    exists r :: r in rows && r.Assertion? && r.key == k && r.obj == Some(obj)
  }

  /** Nothing in the store that no row asked for. */
  ghost predicate Sourced(st: Store, rows: seq<Row>) {
    && (forall k | k in st.vectors :: Vector(k, st.vectors[k]) in rows)
    && (forall k | k in st.entities :: Entity(k, st.entities[k]) in rows)
    && (forall k | k in st.assertions :: NodeRow(rows, k, st.assertions[k]))
    && (forall e | e in st.subjectOf :: SubjectRow(rows, e.0, e.1))
    && (forall e | e in st.objectOf :: ObjectRow(rows, e.0, e.1))
    && (forall e | e in st.links :: Link(e.0, e.1, st.links[e]) in rows)
  }

  ghost predicate Complete(st: Store, rows: seq<Row>) {
    forall r | r in rows :: Covers(st, r)
  }

  /** The store is exactly the projection: every row present with its own content, and
      nothing else. */
  ghost predicate IsProjection(st: Store, rows: seq<Row>) {
    && Sourced(st, rows)
    && Complete(st, rows)
    && (forall r | r in rows && r.Link? :: st.links[(r.source, r.target)] == r.relation)
  }

  /** The rows a MATCH of row `n` needs stand before it. */
  ghost predicate EndpointsEarlier(rows: seq<Row>, n: nat)
    requires n < |rows|
  {
    match rows[n]
    case Assertion(_, subject, obj, _) =>
      && EntityAmong(rows[..n], subject)
      && (obj.Some? ==> EntityAmong(rows[..n], obj.value))
    case Link(source, target, _) =>
      && AssertionAmong(rows[..n], source)
      && AssertionAmong(rows[..n], target)
    case _ => true
  }

  ghost predicate Replayable(rows: seq<Row>) {
    Compatible(rows) && forall n | 0 <= n < |rows| :: EndpointsEarlier(rows, n)
  }

  lemma SourcedExtends(st: Store, rows: seq<Row>, r: Row)
    requires Sourced(st, rows)
    ensures Sourced(st, rows + [r])
  {
    var rows' := rows + [r];
    assert forall x | x in rows :: x in rows';
    forall k | k in st.assertions ensures NodeRow(rows', k, st.assertions[k]) {
      assert NodeRow(rows, k, st.assertions[k]);
    }
    forall e | e in st.subjectOf ensures SubjectRow(rows', e.0, e.1) { assert SubjectRow(rows, e.0, e.1); }
    forall e | e in st.objectOf ensures ObjectRow(rows', e.0, e.1) { assert ObjectRow(rows, e.0, e.1); }
  }

  lemma ApplyIsSourced(st: Store, rows: seq<Row>, r: Row)
    requires Sourced(st, rows)
    ensures Sourced(ApplyRow(st, r), rows + [r])
  {
    var st', rows' := ApplyRow(st, r), rows + [r];
    assert r in rows' && forall x | x in rows :: x in rows';
    SourcedExtends(st, rows, r);
    if r.Assertion? && EndpointsPresent(st, r) {
      forall k | k in st'.assertions ensures NodeRow(rows', k, st'.assertions[k]) { }
      forall e | e in st'.subjectOf ensures SubjectRow(rows', e.0, e.1) { }
      forall e | e in st'.objectOf ensures ObjectRow(rows', e.0, e.1) { }
    }
  }

  lemma ApplyCovers(st: Store, rows: seq<Row>, r: Row)
    requires Sourced(st, rows) && EndpointsPresent(st, r)
    requires forall a | a in rows :: !Clash(a, r)
    ensures Covers(ApplyRow(st, r), r)
  {
    if r.Assertion? && r.key in st.assertions {
      assert NodeRow(rows, r.key, st.assertions[r.key]);
    }
  }

  /** By the time row `n` is applied its endpoints exist, so no MATCH is silently skipped
      and the store holds exactly what the first `n` rows ask for. */
  lemma {:induction false} ImageIsExact(rows: seq<Row>, n: nat)
    requires Replayable(rows) && n <= |rows|
    ensures Sourced(Image(rows[..n]), rows[..n]) && Complete(Image(rows[..n]), rows[..n])
    ensures n < |rows| ==> EndpointsPresent(Image(rows[..n]), rows[n])
  {
    if n > 0 {
      var before, r := Image(rows[..n - 1]), rows[n - 1];
      ImageIsExact(rows, n - 1);
      assert rows[..n][..n - 1] == rows[..n - 1];
      assert rows[..n] == rows[..n - 1] + [r];
      ApplyIsSourced(before, rows[..n - 1], r);
      forall a | a in rows[..n] ensures Covers(Image(rows[..n]), a) && !Clash(a, r) {
        assert a in rows && r in rows;
        if a in rows[..n - 1] { CoverageSurvives(before, a, r); }
        else { ApplyCovers(before, rows[..n - 1], r); }
      }
    }
    if n < |rows| { assert EndpointsEarlier(rows, n); }
  }

  lemma ImageSnoc(rows: seq<Row>, n: nat)
    requires n < |rows|
    ensures Image(rows[..n + 1]) == ApplyRow(Image(rows[..n]), rows[n])
  {
    assert rows[..n + 1][..n] == rows[..n];
  }

  lemma ReapplyIsNoOp(rows: seq<Row>, m: nat, j: nat)
    requires Replayable(rows) && j < m <= |rows|
    ensures ApplyRow(Image(rows[..m]), rows[j]) == Image(rows[..m])
  {
    ImageIsExact(rows, m);
    assert rows[..m][j] in rows[..m];
    CoveredIsNoOp(Image(rows[..m]), rows[j]);
  }

  /** Two links with the same endpoints and different relations. */
  ghost predicate ParallelLinks(rows: seq<Row>) {
    exists a, b :: a in rows && b in rows && a.Link? && b.Link?
                   && a.source == b.source && a.target == b.target && a.relation != b.relation
  }

  /** The graph merges links on their endpoints alone.  A full replay is therefore the
      projection exactly when no assertion pair both contradicts and supersedes. */
  lemma FullReplayIsProjection(rows: seq<Row>)
    requires Replayable(rows)
    ensures IsProjection(Image(rows), rows) <==> !ParallelLinks(rows)
  {
    ImageIsExact(rows, |rows|);
    assert rows[..|rows|] == rows;
    var st := Image(rows);
    if !ParallelLinks(rows) {
      forall r | r in rows && r.Link? ensures st.links[(r.source, r.target)] == r.relation {
        assert Covers(st, r);
        assert Link(r.source, r.target, st.links[(r.source, r.target)]) in rows;
      }
    }
  }

  // ---------------------------------------------------------------------------
  // Snapshots are replayable
  // ---------------------------------------------------------------------------

  /** The lane of a row among four concatenated lanes. */
  function Pick(a: seq<Row>, b: seq<Row>, c: seq<Row>, d: seq<Row>, lane: nat): seq<Row> {
    if lane == 0 then a else if lane == 1 then b else if lane == 2 then c else d
  }

  function Start(a: seq<Row>, b: seq<Row>, c: seq<Row>, lane: nat): nat {
    if lane == 0 then 0 else if lane == 1 then |a| else if lane == 2 then |a| + |b| else |a| + |b| + |c|
  }

  lemma FourAt(a: seq<Row>, b: seq<Row>, c: seq<Row>, d: seq<Row>, lane: nat, i: nat)
    requires lane < 4 && i < |Pick(a, b, c, d, lane)|
    ensures var r := a + (b + (c + d));
            Start(a, b, c, lane) + i < |r| && r[Start(a, b, c, lane) + i] == Pick(a, b, c, d, lane)[i]
  {
  }

  lemma RowAt(s: Snapshot, lane: nat, i: nat)
    requires lane < 4 && i < |Lane(s, lane)|
    ensures Base(s, lane) + i < |Rows(s)| && Rows(s)[Base(s, lane) + i] == Lane(s, lane)[i]
    ensures Base(s, 4) == |Rows(s)|
  {
    var a, b, c, d := Lane(s, 0), Lane(s, 1), Lane(s, 2), Lane(s, 3);
    assert Base(s, lane) == Start(a, b, c, lane) && Base(s, 4) == |Rows(s)| by { BaseMonotone(s); }
    assert Lane(s, lane) == Pick(a, b, c, d, lane);
    FourAt(a, b, c, d, lane, i);
  }

  lemma LaneOf(s: Snapshot, n: nat) returns (lane: nat, i: nat)
    requires n < |Rows(s)|
    ensures lane < 4 && i < |Lane(s, lane)| && n == Base(s, lane) + i && Rows(s)[n] == Lane(s, lane)[i]
  {
    assert Base(s, 1) == |Lane(s, 0)|;
    assert Base(s, 2) == Base(s, 1) + |Lane(s, 1)|;
    assert Base(s, 3) == Base(s, 2) + |Lane(s, 2)|;
    if n < Base(s, 1) { lane, i := 0, n; }
    else if n < Base(s, 2) { lane, i := 1, n - Base(s, 1); }
    else if n < Base(s, 3) { lane, i := 2, n - Base(s, 2); }
    else { lane, i := 3, n - Base(s, 3); }
    RowAt(s, lane, i);
  }

  lemma EarlierRow(s: Snapshot, lane: nat, i: nat, n: nat)
    requires lane < 4 && i < |Lane(s, lane)| && Base(s, lane) + i < n <= |Rows(s)|
    ensures Lane(s, lane)[i] in Rows(s)[..n]
  {
    RowAt(s, lane, i);
    assert Rows(s)[..n][Base(s, lane) + i] == Lane(s, lane)[i];
  }

  lemma BaseMonotone(s: Snapshot)
    ensures Base(s, 0) == 0 && Base(s, 1) == |Lane(s, 0)|
    ensures Base(s, 2) == Base(s, 1) + |Lane(s, 1)| && Base(s, 3) == Base(s, 2) + |Lane(s, 2)|
    ensures Base(s, 4) == Base(s, 3) + |Lane(s, 3)| == |Rows(s)|
  {
    assert Base(s, 1) == Base(s, 0) + |Lane(s, 0)|;
    assert Base(s, 2) == Base(s, 1) + |Lane(s, 1)|;
    assert Base(s, 3) == Base(s, 2) + |Lane(s, 2)|;
  }

  lemma LaneKind(s: Snapshot, lane: nat, i: nat)
    requires FromQueries(s) && lane < 4 && i < |Lane(s, lane)|
    ensures var r := Lane(s, lane)[i];
      r.Vector? == (lane == 0) && r.Entity? == (lane == 1) && r.Assertion? == (lane == 2) && r.Link? == (lane == 3)
  {
  }

  lemma NoClash(s: Snapshot, m: nat, n: nat)
    requires FromQueries(s) && m < |Rows(s)| && n < |Rows(s)|
    ensures !Clash(Rows(s)[m], Rows(s)[n])
  {
    var la, i := LaneOf(s, m);
    var lb, j := LaneOf(s, n);
    LaneKind(s, la, i);
    LaneKind(s, lb, j);
    var a, b := Rows(s)[m], Rows(s)[n];
    if la == lb && la < 3 && i != j {
      SameLaneKeys(s, la, if i < j then i else j, if i < j then j else i);
    }
  }

  lemma SameLaneKeys(s: Snapshot, lane: nat, i: nat, j: nat)
    requires FromQueries(s) && lane < 3 && i < j < |Lane(s, lane)|
    ensures !Lane(s, lane)[i].Link? && !Lane(s, lane)[j].Link? && Lane(s, lane)[i].key != Lane(s, lane)[j].key
  {
    LaneKind(s, lane, i);
    LaneKind(s, lane, j);
  }

  lemma EntityBefore(s: Snapshot, k: Key, n: nat)
    requires FromQueries(s) && HasEntity(s, k) && s.graphEnabled && Base(s, 2) <= n <= |Rows(s)|
    ensures EntityAmong(Rows(s)[..n], k)
  {
    var j :| 0 <= j < |s.entities| && s.entities[j].Entity? && s.entities[j].key == k;
    BaseMonotone(s);
    EarlierRow(s, 1, j, n);
  }

  lemma AssertionBefore(s: Snapshot, k: Key, n: nat)
    requires FromQueries(s) && s.graphEnabled && Base(s, 3) <= n <= |Rows(s)|
    requires AssertionAmong(s.assertions, k)
    ensures AssertionAmong(Rows(s)[..n], k)
  {
    var r :| r in s.assertions && r.Assertion? && r.key == k;
    var j :| 0 <= j < |s.assertions| && s.assertions[j] == r;
    BaseMonotone(s);
    EarlierRow(s, 2, j, n);
  }

  lemma AssertionEndpoints(s: Snapshot, i: nat, n: nat)
    requires FromQueries(s) && Owned(s) && s.graphEnabled && i < |s.assertions| && Base(s, 2) <= n <= |Rows(s)|
    ensures EntityAmong(Rows(s)[..n], s.assertions[i].subject)
    ensures s.assertions[i].obj.Some? ==> EntityAmong(Rows(s)[..n], s.assertions[i].obj.value)
  {
    EntityBefore(s, s.assertions[i].subject, n);
    if s.assertions[i].obj.Some? { EntityBefore(s, s.assertions[i].obj.value, n); }
  }

  lemma LinkEndpoints(s: Snapshot, i: nat, n: nat)
    requires FromQueries(s) && s.graphEnabled && i < |s.links| && Base(s, 3) <= n <= |Rows(s)|
    ensures AssertionAmong(Rows(s)[..n], s.links[i].source) && AssertionAmong(Rows(s)[..n], s.links[i].target)
  {
    AssertionBefore(s, s.links[i].source, n);
    AssertionBefore(s, s.links[i].target, n);
  }

  lemma EndpointsInOrder(s: Snapshot, n: nat)
    requires FromQueries(s) && Owned(s) && n < |Rows(s)|
    ensures EndpointsEarlier(Rows(s), n)
  {
    var lane, i := LaneOf(s, n);
    BaseMonotone(s);
    LaneKind(s, lane, i);
    if lane == 2 {
      AssertionEndpoints(s, i, n);
    } else if lane == 3 {
      LinkEndpoints(s, i, n);
    }
  }

  /** The lane order and the ownership check together give every MATCH its endpoints. */
  lemma OwnedSnapshotIsReplayable(s: Snapshot)
    requires FromQueries(s) && Owned(s)
    ensures Replayable(Rows(s))
  {
    var rows := Rows(s);
    forall a, b | a in rows && b in rows ensures !Clash(a, b) {
      var m, n :| 0 <= m < |rows| && rows[m] == a && 0 <= n < |rows| && rows[n] == b;
      NoClash(s, m, n);
    }
    forall n | 0 <= n < |rows| ensures EndpointsEarlier(rows, n) {
      EndpointsInOrder(s, n);
    }
  }

  /** One entity, two assertions about it, and two relations between them. */
  function TwoLinks(e: Key, a: Key, b: Key, first: string, second: string): Snapshot {
    Snapshot([], [Entity(e, "")], [Assertion(a, e, None, ""), Assertion(b, e, None, "")],
             [Link(a, b, first), Link(a, b, second)], true, 0, 0, {}, [], {}, [])
  }

  function TwoRelations(e: Key, a: Key, b: Key): Snapshot {
    TwoLinks(e, a, b, "CONTRADICTS", "SUPERSEDES")
  }

  lemma TwoLinksFromQueries(e: Key, a: Key, b: Key, first: string, second: string)
    requires a != b && first != second && KnownRelation(first) && KnownRelation(second)
    ensures FromQueries(TwoLinks(e, a, b, first, second))
  {
    var s := TwoLinks(e, a, b, first, second);
    assert s.assertions[0] in s.assertions && s.assertions[1] in s.assertions;
    assert AssertionAmong(s.assertions, a) && AssertionAmong(s.assertions, b);
  }

  /** Such a pair passes every check before the replay: the link table's key holds the relation,
      and the ownership check looks at one link at a time. */
  lemma ParallelLinksPass(e: Key, a: Key, b: Key)
    requires a != b
    ensures FromQueries(TwoRelations(e, a, b)) && Owned(TwoRelations(e, a, b))
    ensures forall m :: Admitted(TwoRelations(e, a, b), m)
    ensures ParallelLinks(Rows(TwoRelations(e, a, b)))
  {
    assert "CONTRADICTS"[0] != "SUPERSEDES"[0];
    TwoLinksFromQueries(e, a, b, "CONTRADICTS", "SUPERSEDES");
    assert TwoRelations(e, a, b).entities[0].key == e;
    BothRelations(TwoRelations(e, a, b), a, b);
  }

  lemma BothRelations(s: Snapshot, a: Key, b: Key)
    requires s.graphEnabled && s.links == [Link(a, b, "CONTRADICTS"), Link(a, b, "SUPERSEDES")]
    ensures ParallelLinks(Rows(s))
  {
    RowAt(s, 3, 0);
    RowAt(s, 3, 1);
    assert s.links[0] in Rows(s) && s.links[1] in Rows(s);
    assert "CONTRADICTS"[0] != "SUPERSEDES"[0];
  }

  // ---------------------------------------------------------------------------
  // The replayer
  // ---------------------------------------------------------------------------

  /** The checks at the start of replay; the result says whether vectors can be embedded. */
  function Checked(s: Snapshot, batchSize: nat, m: Manifest): Result<bool, Error> {
    if !(1 <= batchSize <= 1000) then Failure(InvalidBatch)
    else if !Owned(s) then Failure(OwnershipError)
    else
      var expected :- ValidateProvider(s, m);
      Success(expected.Some?)
  }

  lemma CheckedMeans(s: Snapshot, batchSize: nat, m: Manifest)
    ensures var r := Checked(s, batchSize, m);
            && (r.Success? ==>
                  && 1 <= batchSize <= 1000 && Owned(s) && ValidateProvider(s, m).Success?
                  && (Provided(s, m) <==> r.value || s.vectors == []))
            && (r.Failure? ==>
                  || (r.error == InvalidBatch && !(1 <= batchSize <= 1000))
                  || (r.error == OwnershipError && !Owned(s))
                  || (r.error == ProviderConflict && !Provided(s, m)))
  {
  }

  /** The durable state of one rebuild: the staging stores and the checkpoint row. */
  class Rebuild {
    const rows: seq<Row>
    const counts: seq<nat>
    var store: Store
    var offsets: seq<nat>
    var completed: nat
    var total: nat
    var verifying: bool
    /** How many rows have reached the stores; at least as many as are checkpointed. */
    ghost var applied: nat

    /** Lanes are checkpointed in order: a lane has started only if the previous ones are
        finished. */
    ghost predicate InOrder()
      reads this
    {
      && |counts| == |offsets| == 4
      && offsets[0] <= counts[0] && offsets[1] <= counts[1] && offsets[2] <= counts[2] && offsets[3] <= counts[3]
      && (offsets[1] > 0 ==> offsets[0] == counts[0])
      && (offsets[2] > 0 ==> offsets[0] == counts[0] && offsets[1] == counts[1])
      && (offsets[3] > 0 ==> offsets[0] == counts[0] && offsets[1] == counts[1] && offsets[2] == counts[2])
    }

    ghost predicate Valid()
      reads this
    {
      && InOrder()
      && |rows| == counts[0] + counts[1] + counts[2] + counts[3]
      && completed == offsets[0] + offsets[1] + offsets[2] + offsets[3]
      && completed <= applied <= |rows|
      && store == Image(rows[..applied])
      && total in {0, |rows|}
      && (applied > 0 || verifying ==> Replayable(rows))
      && (verifying ==> completed == total == |rows|)
    }

    ghost predicate Of(s: Snapshot) {
      rows == Rows(s) && counts == [|Lane(s, 0)|, |Lane(s, 1)|, |Lane(s, 2)|, |Lane(s, 3)|]
    }

    constructor (s: Snapshot)
      ensures Valid() && Of(s) && store == EMPTY && !verifying
    {
      rows := Rows(s);
      counts := [|Lane(s, 0)|, |Lane(s, 1)|, |Lane(s, 2)|, |Lane(s, 3)|];
      store, offsets, completed, total, verifying := EMPTY, [0, 0, 0, 0], 0, 0, false;
      applied := 0;
    }

    /** _apply_batch: one vector upsert for the whole page, or one graph write per row.
        The process may stop before any of those writes. */
    method ApplyBatch(bulk: bool, first: nat, count: nat, provider: bool, fuel: nat)
      returns (o: Outcome<Error>, left: nat)
      requires Valid() && Replayable(rows)
      requires 0 < count && first == completed && first + count <= |rows|
      modifies this`store, this`applied
      ensures Valid() && applied >= old(applied) && left <= fuel
      ensures o.Pass? ==> applied >= first + count
      ensures o.Fail? ==> o.error == Stopped || (o.error == ProviderConflict && bulk && !provider)
      ensures fuel > count && (bulk ==> provider) ==> o.Pass? && left >= fuel - count
    {
      left := fuel;
      if bulk {
        if !provider { return Fail(ProviderConflict), left; }
        if left == 0 { return Fail(Stopped), left; }
        left := left - 1;
      }
      for i := first to first + count
        invariant Valid() && applied >= old(applied) && applied >= i
        invariant left <= fuel && (left >= fuel - (i - first) || (bulk && left == fuel - 1))
      {
        if !bulk {
          if left == 0 { return Fail(Stopped), left; }
          left := left - 1;
        }
        if i < applied { ReapplyIsNoOp(rows, applied, i); } else { ImageSnoc(rows, i); }
        store := ApplyRow(store, rows[i]);
        applied := if i < applied then applied else i + 1;
      }
      return Pass, left;
    }

    /** One turn of the inner loop: renew the lease, apply a page, checkpoint it. */
    method ReplayPage(lane: nat, batchSize: nat, provider: bool, fuel: nat) returns (o: Outcome<Error>, left: nat)
      requires Valid() && !verifying && Replayable(rows)
      requires lane < 4 && offsets[lane] < counts[lane] && 1 <= batchSize
      requires forall l | 0 <= l < lane :: offsets[l] == counts[l]
      modifies this`store, this`applied, this`offsets, this`completed, this`total
      ensures Valid() && applied >= old(applied) && completed >= old(completed)
      ensures o.Pass? ==> offsets[lane] > old(offsets)[lane]
                          && (forall l | 0 <= l < lane :: offsets[l] == old(offsets)[l])
      ensures o.Fail? ==> o.error == Stopped || (o.error == ProviderConflict && lane == 0 && !provider)
      ensures fuel > 3 * (|rows| - old(completed)) + 1 && (lane == 0 ==> provider)
              ==> o.Pass? && left > 3 * (|rows| - completed) + 1
    {
      left := fuel;
      if left == 0 { return Fail(Stopped), left; }
      left := left - 1;
      var rest := counts[lane] - offsets[lane];
      var page := if rest < batchSize then rest else batchSize;
      o, left := ApplyBatch(lane == 0, completed, page, provider, left);
      if o.Fail? { return; }
      if left == 0 { return Fail(Stopped), left; }
      left := left - 1;
      Checkpoint(lane, page);
      return Pass, left;
    }

    /** The transition that records a page: its lane's offset, the progress and the total. */
    method Checkpoint(lane: nat, page: nat)
      requires Valid() && !verifying && lane < 4 && 0 < page <= counts[lane] - offsets[lane]
      requires forall l | 0 <= l < lane :: offsets[l] == counts[l]
      requires applied >= completed + page && Replayable(rows)
      modifies this`offsets, this`completed, this`total
      ensures Valid() && offsets == old(offsets)[lane := old(offsets)[lane] + page]
      ensures completed == old(completed) + page && total == |rows|
    {
      offsets := offsets[lane := offsets[lane] + page];
      completed := completed + page;
      total := |rows|;
    }

    /** ProjectionReplayer.replay, stopping for any reason (crash, interrupt, lost lease,
        provider failure) once `fuel` effects have happened.  Resuming is calling it again,
        with any batch size and manifest.  It can only be refused for a bad batch size, a
        snapshot that fails the ownership check or a manifest that does not provide for it;
        the checkpoint checks never fire. */
    method Replay(s: Snapshot, batchSize: nat, m: Manifest, fuel: nat) returns (o: Outcome<Error>)
      requires FromQueries(s) && Of(s) && Valid() && !verifying
      modifies this
      ensures Valid() && applied >= old(applied) && completed >= old(completed)
      ensures o.Pass? <==> verifying
      ensures o.Pass? ==> Owned(s) && ValidateProvider(s, m).Success?
      ensures o.Fail? ==>
                match o.error
                case InvalidBatch => !(1 <= batchSize <= 1000)
                case OwnershipError => !Owned(s)
                case CheckpointError => false
                case ProviderConflict => !Provided(s, m)
                case Stopped => true
      ensures (
        && 1 <= batchSize <= 1000 && Admitted(s, m)
        && fuel > 3 * |rows| + 1
      ) ==> o.Pass?
    {
      var provider := Checked(s, batchSize, m);
      CheckedMeans(s, batchSize, m);
      if provider.Failure? { return Fail(provider.error); }
      assert Replayable(rows) by { OwnedSnapshotIsReplayable(s); }
      o := ReplayLanes(batchSize, provider.value, fuel);
    }

    method ReplayLane(lane: nat, batchSize: nat, provider: bool, fuel: nat) returns (o: Outcome<Error>, left: nat)
      requires Valid() && !verifying && Replayable(rows) && lane < 4 && 1 <= batchSize
      requires forall l | 0 <= l < lane :: offsets[l] == counts[l]
      modifies this`store, this`applied, this`offsets, this`completed, this`total
      ensures Valid() && applied >= old(applied) && completed >= old(completed)
      ensures o.Pass? ==> forall l | 0 <= l <= lane :: offsets[l] == counts[l]
      ensures o.Fail? ==> o.error == Stopped || (o.error == ProviderConflict && lane == 0 && !provider && counts[0] > 0)
      ensures fuel > 3 * (|rows| - old(completed)) + 1 && (lane == 0 && counts[0] > 0 ==> provider)
              ==> o.Pass? && left > 3 * (|rows| - completed) + 1
    {
      left, o := fuel, Pass;
      while offsets[lane] < counts[lane]
        invariant Valid() && applied >= old(applied) && completed >= old(completed)
        invariant forall l | 0 <= l < lane :: offsets[l] == counts[l]
        invariant o.Pass?
        invariant fuel > 3 * (|rows| - old(completed)) + 1 && (lane == 0 && counts[0] > 0 ==> provider)
                  ==> left > 3 * (|rows| - completed) + 1
        decreases counts[lane] - offsets[lane]
      {
        o, left := ReplayPage(lane, batchSize, provider, left);
        if o.Fail? { return; }
      }
    }

    method ReplayLanes(batchSize: nat, provider: bool, fuel: nat) returns (o: Outcome<Error>)
      requires Valid() && !verifying && Replayable(rows) && 1 <= batchSize
      modifies this
      ensures Valid() && applied >= old(applied) && completed >= old(completed)
      ensures o.Pass? <==> verifying
      ensures o.Fail? ==> o.error == Stopped || (o.error == ProviderConflict && !provider && counts[0] > 0)
      ensures (provider || counts[0] == 0) && fuel > 3 * |rows| + 1 ==> o.Pass?
    {
      if offsets[0] > counts[0] || offsets[1] > counts[1] || offsets[2] > counts[2] || offsets[3] > counts[3] {
        assert false;
      }
      if completed != offsets[0] + offsets[1] + offsets[2] + offsets[3] { assert false; }
      if total != 0 && total != |rows| { assert false; }
      var left: nat := fuel;
      ghost var supplied := fuel > 3 * |rows| + 1 && (provider || counts[0] == 0);
      for lane := 0 to 4
        invariant Valid() && !verifying && applied >= old(applied) && completed >= old(completed)
        invariant forall l | 0 <= l < lane :: offsets[l] == counts[l]
        invariant supplied ==> left > 3 * (|rows| - completed) + 1
      {
        var page;
        page, left := ReplayLane(lane, batchSize, provider, left);
        if page.Fail? { return page; }
      }
      if left == 0 { return Fail(Stopped); }
      total := |rows|;
      verifying := true;
      return Pass;
    }
  }

  datatype Attempt = Attempt(batchSize: nat, manifest: Manifest, fuel: nat)

  /** Any pattern of attempts, each with its own batch size, manifest and point of death:
      at VERIFYING the stores hold the projection of the snapshot and nothing else, unless
      two links differ only in their relation. */
  method ReplayInAttempts(s: Snapshot, attempts: seq<Attempt>) returns (b: Rebuild)
    requires FromQueries(s)
    ensures b.Valid() && b.Of(s)
    ensures b.verifying ==> (IsProjection(b.store, Rows(s)) <==> !ParallelLinks(Rows(s)))
    ensures b.verifying ==> b.completed == b.total == |Rows(s)|
  {
    b := new Rebuild(s);
    for i := 0 to |attempts|
      invariant fresh(b) && b.Valid() && b.Of(s)
    {
      if !b.verifying {
        var _ := b.Replay(s, attempts[i].batchSize, attempts[i].manifest, attempts[i].fuel);
      }
    }
    if b.verifying {
      assert Rows(s)[..b.applied] == Rows(s);
      FullReplayIsProjection(Rows(s));
    }
  }
}
