/** Choosing one complete graph proof for an atomic memory
    (mesa_memory/context_builder.py). */
module GraphProof {
  import opened Wrappers

  /** A provenance fact: its assertion id ("" when it has none) and what the model would see of it. */
  datatype Fact = Fact(assertionId: string, visible: string)

  /** A graph path; a field the source leaves out of the path is "" or [] here. */
  datatype Path = Path(
    pathId: string,
    assertionIds: seq<string>,
    entityIds: seq<string>,
    edgeDirections: seq<string>,
    predicates: seq<string>)

  datatype Memory = Memory(
    rawIndex: nat,
    entity: string,
    facts: seq<Fact>,
    atomic: bool,
    principal: string,
    paths: seq<Path>,
    compacted: bool)

  // ---------------------------------------------------------------------------
  // Strings in code point order
  // ---------------------------------------------------------------------------

  predicate Less(a: string, b: string) {
    b != [] && (a == [] || a[0] < b[0] || (a[0] == b[0] && Less(a[1..], b[1..])))
  }

  /** The first position at which they differ decides; a proper beginning comes first. */
  ghost predicate Precedes(a: string, b: string) {
    exists k: nat :: DiffersAt(a, b, k)
  }

  predicate DiffersAt(a: string, b: string, k: nat) {
    k <= |a| && k < |b| && a[..k] == b[..k] && (k == |a| || a[k] < b[k])
  }

  lemma DiffersLater(a: string, b: string, k: nat)
    requires DiffersAt(a, b, k)
    ensures k > 0 ==> a != [] && b != [] && a[0] == b[0]
  {
    if k > 0 { assert a[0] == a[..k][0] == b[..k][0] == b[0]; }
  }

  /** `Less` is code point order. */
  lemma {:induction false} LessIsPrecedes(a: string, b: string)
    ensures Less(a, b) <==> Precedes(a, b)
  {
    if a == [] || b == [] || a[0] != b[0] {
      if b != [] && (a == [] || a[0] < b[0]) { assert DiffersAt(a, b, 0); }
      if k: nat :| DiffersAt(a, b, k) { DiffersLater(a, b, k); }
    } else {
      LessIsPrecedes(a[1..], b[1..]);
      assert a == [a[0]] + a[1..] && b == [b[0]] + b[1..];
      if k: nat :| DiffersAt(a[1..], b[1..], k) {
        assert a[..k + 1] == [a[0]] + a[1..][..k] && b[..k + 1] == [b[0]] + b[1..][..k];
        assert DiffersAt(a, b, k + 1);
      }
      if k: nat :| DiffersAt(a, b, k) {
        assert a[1..][..k - 1] == a[..k][1..] && b[1..][..k - 1] == b[..k][1..];
        assert DiffersAt(a[1..], b[1..], k - 1);
      }
    }
  }

  lemma {:induction false} LessIsTotal(a: string, b: string)
    ensures a == b || Less(a, b) || Less(b, a)
    ensures !(Less(a, b) && (a == b || Less(b, a)))
  {
    if a != [] && b != [] && a[0] == b[0] {
      LessIsTotal(a[1..], b[1..]);
      assert a == [a[0]] + a[1..] && b == [b[0]] + b[1..];
    }
  }

  lemma {:induction false} LessIsTransitive(a: string, b: string, c: string)
    requires Less(a, b) && Less(b, c)
    ensures Less(a, c)
  {
    if a != [] && a[0] == b[0] && b[0] == c[0] {
      LessIsTransitive(a[1..], b[1..], c[1..]);
    }
  }

  // ---------------------------------------------------------------------------
  // Valid paths and their ranking
  // ---------------------------------------------------------------------------

  /** The dictionary of facts by assertion id: a later fact replaces an earlier one. */
  function ById(facts: seq<Fact>): (d: map<string, Fact>)
    ensures forall id | id in d :: d[id].assertionId == id != "" && d[id] in facts
    ensures forall f | f in facts && f.assertionId != "" :: f.assertionId in d
  {
    if facts == [] then map[] else
      var last := facts[|facts| - 1];
      var rest := ById(facts[..|facts| - 1]);
      if last.assertionId == "" then rest else rest[last.assertionId := last]
  }

  /** The path is complete: it ends in the principal assertion and every step of it can be
      shown as a fact of this memory. */
  predicate Valid(m: Memory, p: Path) {
    && m.principal != ""
    && p.pathId != ""
    && p.assertionIds != []
    && p.assertionIds[|p.assertionIds| - 1] == m.principal
    && (forall id | id in p.assertionIds :: id in ById(m.facts))
    && |p.entityIds| == |p.assertionIds| + 1
    && |p.edgeDirections| == |p.assertionIds|
    && |p.predicates| == |p.assertionIds|
  }

  predicate ValidAt(m: Memory, i: nat) {
    i < |m.paths| && Valid(m, m.paths[i])
  }

  /** The structure of a path without its name. */
  function Signature(p: Path): Path {
    p.(pathId := "")
  }

  /** Shorter first, then the smaller name, then the earlier. */
  predicate Before(m: Memory, i: nat, j: nat)
    requires i < |m.paths| && j < |m.paths|
  {
    var p, q := m.paths[i], m.paths[j];
    || |p.assertionIds| < |q.assertionIds|
    || (|p.assertionIds| == |q.assertionIds| && (Less(p.pathId, q.pathId) || (p.pathId == q.pathId && i < j)))
  }

  /** The best of all complete paths, duplicates included. */
  ghost predicate Best(m: Memory, b: nat) {
    ValidAt(m, b) && forall i: nat | ValidAt(m, i) && i != b :: Before(m, b, i)
  }

  ghost function Signatures(m: Memory): set<Path> {
    set i: nat | i < |m.paths| && ValidAt(m, i) :: Signature(m.paths[i])
  }

  lemma BeforeIsTotal(m: Memory, i: nat, j: nat)
    requires i < |m.paths| && j < |m.paths| && i != j
    ensures Before(m, i, j) != Before(m, j, i)
  {
    LessIsTotal(m.paths[i].pathId, m.paths[j].pathId);
  }

  lemma BeforeIsTransitive(m: Memory, i: nat, j: nat, k: nat)
    requires i < |m.paths| && j < |m.paths| && k < |m.paths|
    requires Before(m, i, j) && Before(m, j, k)
    ensures Before(m, i, k)
  {
    var p, q, r := m.paths[i], m.paths[j], m.paths[k];
    if |p.assertionIds| == |q.assertionIds| == |r.assertionIds|
       && Less(p.pathId, q.pathId) && Less(q.pathId, r.pathId) {
      LessIsTransitive(p.pathId, q.pathId, r.pathId);
    }
  }

  /** `p` is no longer than `q`; if it is as long, its name does not come after in code point
      order. */
  ghost predicate NoLonger(p: Path, q: Path) {
    && |p.assertionIds| <= |q.assertionIds|
    && (|p.assertionIds| == |q.assertionIds| ==> !Precedes(q.pathId, p.pathId))
  }

  /** No complete path is shorter; among those as short, no name precedes its name in code point
      order; among those of the same name, it stands first. */
  ghost predicate Shortest(m: Memory, b: nat) {
    && ValidAt(m, b)
    && forall i: nat | ValidAt(m, i) ::
         && NoLonger(m.paths[b], m.paths[i])
         && (NoLonger(m.paths[i], m.paths[b]) ==> b <= i)
  }

  lemma BeforeIsNoLonger(m: Memory, b: nat, i: nat)
    requires b < |m.paths| && i < |m.paths| && (b == i || Before(m, b, i))
    ensures NoLonger(m.paths[b], m.paths[i])
    ensures NoLonger(m.paths[i], m.paths[b]) ==> b <= i
  {
    var p, q := m.paths[b].pathId, m.paths[i].pathId;
    LessIsPrecedes(p, q);
    LessIsPrecedes(q, p);
    LessIsTotal(p, q);
  }

  lemma BestIsShortest(m: Memory, b: nat)
    requires Best(m, b)
    ensures Shortest(m, b)
  {
    forall i: nat | ValidAt(m, i)
      ensures NoLonger(m.paths[b], m.paths[i]) && (NoLonger(m.paths[i], m.paths[b]) ==> b <= i)
    {
      BeforeIsNoLonger(m, b, i);
    }
  }

  lemma BestIsUnique(m: Memory, b: nat, c: nat)
    requires Best(m, b) && Best(m, c)
    ensures b == c
  {
    if b != c { BeforeIsTotal(m, b, c); }
  }

  /** The representative kept for every structure among the first `n` paths. */
  ghost predicate Represents(m: Memory, kept: map<Path, nat>, n: nat) {
    && n <= |m.paths|
    && (forall s | s in kept :: kept[s] < n && ValidAt(m, kept[s]) && Signature(m.paths[kept[s]]) == s)
    && (forall i: nat | i < n && ValidAt(m, i) :: Signature(m.paths[i]) in kept
          && (kept[Signature(m.paths[i])] == i || Before(m, kept[Signature(m.paths[i])], i)))
  }

  lemma ReplaceKeeps(m: Memory, kept: map<Path, nat>, n: nat)
    requires Represents(m, kept, n) && ValidAt(m, n)
    requires var s := Signature(m.paths[n]); s !in kept || Less(m.paths[n].pathId, m.paths[kept[s]].pathId)
    ensures Represents(m, kept[Signature(m.paths[n]) := n], n + 1)
  {
    var s := Signature(m.paths[n]);
    var kept' := kept[s := n];
    forall i: nat | i <= n && ValidAt(m, i)
      ensures Signature(m.paths[i]) in kept'
      ensures kept'[Signature(m.paths[i])] == i || Before(m, kept'[Signature(m.paths[i])], i)
    {
      if i < n && Signature(m.paths[i]) == s {
        assert Before(m, n, kept[s]);
        if kept[s] != i { BeforeIsTransitive(m, n, kept[s], i); }
      }
    }
  }

  lemma KeepKeeps(m: Memory, kept: map<Path, nat>, n: nat)
    requires Represents(m, kept, n) && n < |m.paths|
    requires ValidAt(m, n) ==>
               var s := Signature(m.paths[n]); s in kept && !Less(m.paths[n].pathId, m.paths[kept[s]].pathId)
    ensures Represents(m, kept, n + 1)
  {
    if ValidAt(m, n) {
      var r := kept[Signature(m.paths[n])];
      LessIsTotal(m.paths[n].pathId, m.paths[r].pathId);
      assert |m.paths[r].assertionIds| == |m.paths[n].assertionIds|;
    }
  }

  /** Deduplicate the complete paths by structure, rank the representatives and take the
      first: that is the best of all complete paths. `count` is how many representatives
      there are. */
  method SelectPath(m: Memory) returns (best: Option<nat>, count: nat)
    ensures best.Some? ==> Best(m, best.value) && Shortest(m, best.value)
    ensures best.None? <==> forall i: nat :: !ValidAt(m, i)
    ensures count == |Signatures(m)|
    ensures best.None? <==> count == 0
  {
    var kept: map<Path, nat> := map[];
    for n := 0 to |m.paths|
      invariant Represents(m, kept, n)
    {
      var p := m.paths[n];
      var s := Signature(p);
      if Valid(m, p) && (s !in kept || Less(p.pathId, m.paths[kept[s]].pathId)) {
        ReplaceKeeps(m, kept, n);
        kept := kept[s := n];
      } else {
        KeepKeeps(m, kept, n);
      }
    }
    count := |kept.Keys|;
    assert kept.Keys == Signatures(m);
    best := First(m, kept);
    if best.Some? {
      FirstIsBest(m, kept, best.value);
      BestIsShortest(m, best.value);
      assert Signature(m.paths[best.value]) in kept;
    } else {
      assert kept.Keys == {};
    }
  }

  ghost predicate Leads(m: Memory, kept: map<Path, nat>, seen: set<Path>, b: nat)
    requires forall s | s in kept :: kept[s] < |m.paths|
    requires seen <= kept.Keys
  {
    && b < |m.paths| && (exists s :: s in seen && kept[s] == b)
    && forall s | s in seen && kept[s] != b :: Before(m, b, kept[s])
  }

  /** The head of the sorted representatives. */
  method First(m: Memory, kept: map<Path, nat>) returns (best: Option<nat>)
    requires Represents(m, kept, |m.paths|)
    ensures best.None? <==> kept.Keys == {}
    ensures best.Some? ==> Leads(m, kept, kept.Keys, best.value)
  {
    best := None;
    var rest := kept.Keys;
    while rest != {}
      invariant rest <= kept.Keys
      invariant best.None? <==> rest == kept.Keys
      invariant best.Some? ==> Leads(m, kept, kept.Keys - rest, best.value)
    {
      var s :| s in rest;
      ghost var seen := kept.Keys - rest;
      assert kept.Keys - (rest - {s}) == seen + {s};
      if best.None? || (kept[s] != best.value && Before(m, kept[s], best.value)) {
        NewLeader(m, kept, seen, best, s);
        best := Some(kept[s]);
      } else {
        OldLeader(m, kept, seen, best.value, s);
      }
      rest := rest - {s};
    }
    assert kept.Keys - {} == kept.Keys;
  }

  lemma NewLeader(m: Memory, kept: map<Path, nat>, seen: set<Path>, best: Option<nat>, s: Path)
    requires Represents(m, kept, |m.paths|) && s in kept && seen <= kept.Keys
    requires if best.None? then seen == {} else Leads(m, kept, seen, best.value) && Before(m, kept[s], best.value)
    ensures Leads(m, kept, seen + {s}, kept[s])
  {
    forall t | t in seen && kept[t] != kept[s] ensures Before(m, kept[s], kept[t]) {
      if kept[t] != best.value { BeforeIsTransitive(m, kept[s], best.value, kept[t]); }
    }
  }

  lemma OldLeader(m: Memory, kept: map<Path, nat>, seen: set<Path>, b: nat, s: Path)
    requires Represents(m, kept, |m.paths|) && s in kept && seen <= kept.Keys
    requires Leads(m, kept, seen, b) && (kept[s] == b || !Before(m, kept[s], b))
    ensures Leads(m, kept, seen + {s}, b)
  {
    if kept[s] != b { BeforeIsTotal(m, kept[s], b); }
    var t :| t in seen && kept[t] == b;
    assert t in seen + {s};
  }

  lemma FirstIsBest(m: Memory, kept: map<Path, nat>, b: nat)
    requires Represents(m, kept, |m.paths|) && Leads(m, kept, kept.Keys, b)
    ensures Best(m, b)
  {
    forall i: nat | ValidAt(m, i) && i != b ensures Before(m, b, i) {
      var r := kept[Signature(m.paths[i])];
      if r != b && r != i { BeforeIsTransitive(m, b, r, i); }
    }
  }

  // ---------------------------------------------------------------------------
  // The compact memory
  // ---------------------------------------------------------------------------

  function Lookup(d: map<string, Fact>, ids: seq<string>): (fs: seq<Fact>)
    requires forall id | id in ids :: id in d
    ensures |fs| == |ids| && forall k | 0 <= k < |ids| :: fs[k] == d[ids[k]]
  {
    seq(|ids|, k requires 0 <= k < |ids| => d[ids[k]])
  }

  function FactIds(facts: seq<Fact>): (ids: seq<string>)
    ensures |ids| <= |facts|
  {
    if facts == [] then []
    else FactIds(facts[..|facts| - 1])
         + (if facts[|facts| - 1].assertionId == "" then [] else [facts[|facts| - 1].assertionId])
  }

  /** The memory reduced to one path; `others` says whether there was another candidate path. */
  function Compact(m: Memory, p: Path, others: bool): Memory
    requires Valid(m, p)
  {
    m.(facts := Lookup(ById(m.facts), p.assertionIds), paths := [p],
       compacted := others || FactIds(m.facts) != p.assertionIds)
  }

  /** The last fact of the memory with that assertion id. */
  predicate IsLastOf(facts: seq<Fact>, id: string, k: nat) {
    k < |facts| && facts[k].assertionId == id && forall j | k < j < |facts| :: facts[j].assertionId != id
  }

  /** `f` is that fact. */
  ghost predicate IsLastFact(facts: seq<Fact>, id: string, f: Fact) {
    exists k: nat :: IsLastOf(facts, id, k) && facts[k] == f
  }

  lemma LastFactStays(facts: seq<Fact>, last: Fact, id: string, f: Fact)
    requires IsLastFact(facts, id, f) && last.assertionId != id
    ensures IsLastFact(facts + [last], id, f)
  {
    var k: nat :| IsLastOf(facts, id, k) && facts[k] == f;
    assert IsLastOf(facts + [last], id, k);
  }

  lemma {:induction false} ByIdIsLast(facts: seq<Fact>, id: string)
    requires id in ById(facts)
    ensures IsLastFact(facts, id, ById(facts)[id])
  {
    var init, last := facts[..|facts| - 1], facts[|facts| - 1];
    assert facts == init + [last];
    if last.assertionId == id {
      assert IsLastOf(facts, id, |facts| - 1);
    } else {
      ByIdIsLast(init, id);
      LastFactStays(init, last, id, ById(init)[id]);
    }
  }

  lemma {:induction false} NamedIsKnown(facts: seq<Fact>, id: string)
    ensures id in ById(facts) <==> id != "" && exists k :: 0 <= k < |facts| && facts[k].assertionId == id
  {
    if facts != [] {
      var init := facts[..|facts| - 1];
      NamedIsKnown(init, id);
      if k :| 0 <= k < |init| && init[k].assertionId == id { assert facts[k].assertionId == id; }
    }
  }

  /** Every step of the path names a fact of the memory. */
  ghost predicate Grounded(m: Memory, p: Path) {
    forall k | 0 <= k < |p.assertionIds| ::
      p.assertionIds[k] != "" && exists f :: f in m.facts && f.assertionId == p.assertionIds[k]
  }

  /** A path counts as complete exactly when it is named, leads to the principal assertion, has
      one more entity than steps, one direction and one predicate per step, and each step names
      a fact of the memory. */
  lemma CompleteIff(m: Memory, p: Path)
    ensures Valid(m, p) <==>
              && p.pathId != "" && Grounded(m, p)
              && |p.assertionIds| == |p.edgeDirections| == |p.predicates| == |p.entityIds| - 1 >= 1
              && p.assertionIds[|p.assertionIds| - 1] == m.principal
  {
    forall id ensures id in ById(m.facts) <==> id != "" && exists f :: f in m.facts && f.assertionId == id {
      NamedIsKnown(m.facts, id);
    }
    if Grounded(m, p) {
      forall id | id in p.assertionIds ensures id in ById(m.facts) {
        var k :| 0 <= k < |p.assertionIds| && p.assertionIds[k] == id;
      }
    }
    if forall id | id in p.assertionIds :: id in ById(m.facts) {
      forall k | 0 <= k < |p.assertionIds| ensures p.assertionIds[k] in ById(m.facts) {
        assert p.assertionIds[k] in p.assertionIds;
      }
    }
  }

  /** The memory `c` shows path `p` of `m` and nothing else: for each step, in order, the last
      fact of that assertion.  It says "not compacted" when there was no other structure and the
      named facts were just those steps. */
  ghost predicate Shows(m: Memory, p: Path, c: Memory) {
    && |c.facts| == |p.assertionIds| && c.paths == [p]
    && p.pathId != "" && c.facts != [] && c.facts[|c.facts| - 1].assertionId == m.principal != ""
    && |p.entityIds| == |c.facts| + 1 && |p.edgeDirections| == |p.predicates| == |c.facts|
    && (forall k | 0 <= k < |c.facts| :: IsLastFact(m.facts, p.assertionIds[k], c.facts[k]))
    && (c.compacted <==> |Signatures(m)| != 1 || FactIds(m.facts) != p.assertionIds)
    && c.rawIndex == m.rawIndex && c.entity == m.entity && c.atomic == m.atomic && c.principal == m.principal
  }

  lemma CompactShows(m: Memory, p: Path)
    requires Valid(m, p)
    ensures Shows(m, p, Compact(m, p, |Signatures(m)| != 1))
  {
    var c := Compact(m, p, |Signatures(m)| != 1);
    forall k | 0 <= k < |c.facts| ensures IsLastFact(m.facts, p.assertionIds[k], c.facts[k]) {
      assert p.assertionIds[k] in p.assertionIds;
      ByIdIsLast(m.facts, p.assertionIds[k]);
    }
  }

  /** The minimum an atomic memory may be reduced to: the shortest complete path, one fact for
      each of its steps; a memory without a complete path has none. */
  method MinimumProof(m: Memory) returns (c: Option<Memory>)
    ensures c.None? <==> forall i: nat :: !ValidAt(m, i)
    ensures c.Some? ==> exists b: nat :: Best(m, b) && c.value == Compact(m, m.paths[b], |Signatures(m)| != 1)
    ensures c.Some? ==> exists b: nat :: Shortest(m, b) && Shows(m, m.paths[b], c.value)
  {
    var best, count := SelectPath(m);
    if best.None? { return None; }
    CompactShows(m, m.paths[best.value]);
    c := Some(Compact(m, m.paths[best.value], count != 1));
  }

  lemma {:induction false} FactIdsComplete(facts: seq<Fact>)
    ensures |FactIds(facts)| == |facts| <==> forall k | 0 <= k < |facts| :: facts[k].assertionId != ""
    ensures |FactIds(facts)| == |facts| ==> forall k | 0 <= k < |facts| :: FactIds(facts)[k] == facts[k].assertionId
  {
    if facts != [] { FactIdsComplete(facts[..|facts| - 1]); }
  }

  /** A proof reported as "not compacted" still shows exactly the memory's facts if and only
      if every fact names its assertion and facts of one assertion are the same fact. */
  lemma UncompactedIsWhole(m: Memory, p: Path)
    requires Valid(m, p) && !Compact(m, p, false).compacted
    ensures Compact(m, p, false).facts == m.facts <==>
            && (forall k | 0 <= k < |m.facts| :: m.facts[k].assertionId != "")
            && (forall j, k |
                    0 <= j < |m.facts| && 0 <= k < |m.facts| && m.facts[j].assertionId == m.facts[k].assertionId ::
                  m.facts[j] == m.facts[k])
  {
    FactIdsComplete(m.facts);
    var d, shown := ById(m.facts), Compact(m, p, false).facts;
    if shown == m.facts {
      forall j, k | 0 <= j < |m.facts| && 0 <= k < |m.facts| && m.facts[j].assertionId == m.facts[k].assertionId
        ensures m.facts[j] == m.facts[k]
      {
        assert shown[j] == d[p.assertionIds[j]] && shown[k] == d[p.assertionIds[k]];
      }
    }
  }

  /** A memory with one anonymous fact loses it although nothing reports a compaction. */
  lemma AnonymousFactIsDropped() returns (m: Memory, p: Path)
    ensures Valid(m, p) && m.paths == [p] && !Compact(m, p, false).compacted
    ensures |Compact(m, p, false).facts| < |m.facts|
  {
    p := Path("p", ["a"], ["x", "y"], ["o"], ["c"]);
    var named, nameless := Fact("a", "v"), Fact("", "w");
    m := Memory(0, "e", [named, nameless], true, "a", [p], false);
    assert m.facts[..1] == [named] && [named][..0] == [];
    calc {
      FactIds(m.facts);
      FactIds([named]);
      FactIds([]) + ["a"];
      ["a"];
    }
    assert ById(m.facts) == ById([named]);
  }
}
