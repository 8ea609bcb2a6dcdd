/** Packing ranked memories into a token budget: the packing section of
    ContextBuilder.build_context (mesa_memory/context_builder.py). */
module ContextPacking {
  import opened Wrappers
  import opened GraphProof

  /** What the model sees of a memory. */
  datatype Shown = Shown(entity: string, facts: seq<string>)

  /** Tokens of a rendered context. Nothing is assumed about it: adding a record may even
      make the rendering cheaper. */
  type Cost = (seq<string>, seq<Shown>) -> nat

  datatype Reason = ProofExceedsBudget | EvidenceExceedsBudget | BudgetExhausted

  datatype Rejection = Rejection(rawIndex: nat, reason: Reason)

  /** A renderable memory with the least that may be kept of it. */
  datatype Candidate = Candidate(full: Memory, minimum: Memory)

  function View(ms: seq<Memory>): (vs: seq<Shown>)
    ensures |vs| == |ms|
  {
    seq(|ms|, i requires 0 <= i < |ms| =>
      Shown(ms[i].entity, seq(|ms[i].facts|, k requires 0 <= k < |ms[i].facts| => ms[i].facts[k].visible)))
  }

  /** The entity and every fact, in order. */
  predicate ShowsWhole(v: Shown, m: Memory) {
    && v.entity == m.entity && |v.facts| == |m.facts|
    && forall k | 0 <= k < |m.facts| :: v.facts[k] == m.facts[k].visible
  }

  /** What is costed is every memory's entity and every one of its facts, in order. */
  lemma ViewIsWhole(ms: seq<Memory>, vs: seq<Shown>)
    requires |vs| == |ms|
    ensures vs == View(ms) <==> forall i | 0 <= i < |ms| :: ShowsWhole(vs[i], ms[i])
  {
    if forall i | 0 <= i < |ms| :: ShowsWhole(vs[i], ms[i]) {
      forall i | 0 <= i < |ms| ensures vs[i] == View(ms)[i] {
        assert ShowsWhole(vs[i], ms[i]) && vs[i].facts == View(ms)[i].facts;
      }
    }
  }

  predicate Fits(cost: Cost, budget: nat, ms: seq<Memory>) {
    cost([], View(ms)) <= budget
  }

  function Raws(ms: seq<Memory>): (rs: seq<nat>)
    ensures |rs| == |ms|
  {
    seq(|ms|, i requires 0 <= i < |ms| => ms[i].rawIndex)
  }

  function RejectedRaws(rs: seq<Rejection>): seq<nat> {
    seq(|rs|, i requires 0 <= i < |rs| => rs[i].rawIndex)
  }

  function Fulls(cs: seq<Candidate>): (ms: seq<Memory>)
    ensures |ms| == |cs|
  {
    seq(|cs|, i requires 0 <= i < |cs| => cs[i].full)
  }

  function Renderable(ms: seq<Memory>): (r: seq<Memory>)
    ensures forall m | m in r :: m in ms && m.facts != []
    ensures forall m | m in ms && m.facts != [] :: m in r
  {
    if ms == [] then []
    else Renderable(ms[..|ms| - 1]) + (if ms[|ms| - 1].facts == [] then [] else [ms[|ms| - 1]])
  }

  ghost predicate Ranked(ms: seq<Memory>) {
    forall i, j | 0 <= i < j < |ms| :: ms[i].rawIndex < ms[j].rawIndex
  }

  // ---------------------------------------------------------------------------
  // Minimums
  // ---------------------------------------------------------------------------

  /** The least that may be kept: a whole atomic memory or its best complete path, otherwise
      the first fact. */
  ghost predicate IsMinimum(full: Memory, minimum: Memory) {
    if !full.atomic then
      full.facts != [] && minimum == full.(facts := full.facts[..1])
    else if forall i: nat :: !ValidAt(full, i) then
      minimum == full
    else
      exists b: nat :: Best(full, b) && minimum == Compact(full, full.paths[b], |Signatures(full)| != 1)
  }

  ghost predicate AllMinimums(cs: seq<Candidate>) {
    forall i | 0 <= i < |cs| :: IsMinimum(cs[i].full, cs[i].minimum) && cs[i].minimum.rawIndex == cs[i].full.rawIndex
  }

  method MinimumOf(m: Memory) returns (minimum: Memory)
    requires m.facts != []
    ensures IsMinimum(m, minimum) && minimum.rawIndex == m.rawIndex
  {
    minimum := m.(facts := m.facts[..1]);
    if m.atomic {
      var proof := MinimumProof(m);
      minimum := if proof.Some? then proof.value else m;
    }
  }

  method Prepare(memories: seq<Memory>) returns (prepared: seq<Candidate>)
    ensures Fulls(prepared) == Renderable(memories) && AllMinimums(prepared)
  {
    prepared := [];
    for k := 0 to |memories|
      invariant Fulls(prepared) == Renderable(memories[..k])
      invariant AllMinimums(prepared)
    {
      var m := memories[k];
      RenderableStep(memories, k);
      if m.facts != [] {
        var minimum := MinimumOf(m);
        AddCandidate(prepared, Candidate(m, minimum));
        prepared := prepared + [Candidate(m, minimum)];
      }
    }
    assert memories[..|memories|] == memories;
  }

  lemma RenderableStep(ms: seq<Memory>, k: nat)
    requires k < |ms|
    ensures Renderable(ms[..k + 1]) == Renderable(ms[..k]) + (if ms[k].facts == [] then [] else [ms[k]])
  {
    assert ms[..k + 1][..k] == ms[..k];
  }

  lemma AddCandidate(cs: seq<Candidate>, c: Candidate)
    requires AllMinimums(cs) && IsMinimum(c.full, c.minimum) && c.minimum.rawIndex == c.full.rawIndex
    ensures AllMinimums(cs + [c]) && Fulls(cs + [c]) == Fulls(cs) + [c.full]
  {
    forall i | 0 <= i < |cs + [c]|
      ensures IsMinimum((cs + [c])[i].full, (cs + [c])[i].minimum)
      ensures (cs + [c])[i].minimum.rawIndex == (cs + [c])[i].full.rawIndex
    {
      assert (cs + [c])[i] == if i < |cs| then cs[i] else c;
    }
  }

  /** Where every candidate goes: `kept` and `rejected` together name each of `cs` once. */
  ghost predicate Partition(cs: seq<Memory>, kept: seq<Memory>, rejected: seq<Rejection>) {
    multiset(Raws(kept)) + multiset(RejectedRaws(rejected)) == multiset(Raws(cs))
  }

  lemma PartitionKeeps(cs: seq<Memory>, kept: seq<Memory>, rejected: seq<Rejection>, c: Memory, m: Memory)
    requires Partition(cs, kept, rejected) && m.rawIndex == c.rawIndex
    ensures Partition(cs + [c], kept + [m], rejected)
  {
    assert Raws(cs + [c]) == Raws(cs) + [c.rawIndex];
    assert Raws(kept + [m]) == Raws(kept) + [m.rawIndex];
  }

  lemma PartitionRejects(cs: seq<Memory>, kept: seq<Memory>, rejected: seq<Rejection>, c: Memory, reason: Reason)
    requires Partition(cs, kept, rejected)
    ensures Partition(cs + [c], kept, rejected + [Rejection(c.rawIndex, reason)])
  {
    assert Raws(cs + [c]) == Raws(cs) + [c.rawIndex];
    assert RejectedRaws(rejected + [Rejection(c.rawIndex, reason)]) == RejectedRaws(rejected) + [c.rawIndex];
  }

  lemma PartitionCounts(cs: seq<Memory>, kept: seq<Memory>, rejected: seq<Rejection>)
    requires Partition(cs, kept, rejected)
    ensures |kept| + |rejected| == |cs|
  {
    assert |multiset(Raws(kept))| == |kept| && |multiset(RejectedRaws(rejected))| == |rejected|;
    assert |multiset(Raws(cs))| == |cs|;
  }

  lemma {:induction false} RankedOnce(ms: seq<Memory>, m: Memory)
    requires Ranked(ms) && m in ms
    ensures multiset(Raws(ms))[m.rawIndex] == 1
  {
    var init, last := ms[..|ms| - 1], ms[|ms| - 1];
    assert Raws(ms) == Raws(init) + [last.rawIndex];
    assert last.rawIndex !in Raws(init);
    if m.rawIndex == last.rawIndex {
      assert multiset(Raws(init))[last.rawIndex] == 0;
    } else {
      RankedOnce(init, m);
    }
  }

  /** Every renderable memory is retained or rejected: exactly one of the two, exactly once. */
  lemma RetainedXorRejected(cs: seq<Memory>, kept: seq<Memory>, rejected: seq<Rejection>, m: Memory)
    requires Ranked(cs) && Partition(cs, kept, rejected) && m in cs
    ensures (m.rawIndex in Raws(kept)) != (m.rawIndex in RejectedRaws(rejected))
    ensures multiset(Raws(kept))[m.rawIndex] + multiset(RejectedRaws(rejected))[m.rawIndex] == 1
    ensures |kept| + |rejected| == |cs|
  {
    RankedOnce(cs, m);
    PartitionCounts(cs, kept, rejected);
    assert m.rawIndex in Raws(kept) <==> multiset(Raws(kept))[m.rawIndex] > 0;
    assert m.rawIndex in RejectedRaws(rejected) <==> multiset(RejectedRaws(rejected))[m.rawIndex] > 0;
    assert (multiset(Raws(kept)) + multiset(RejectedRaws(rejected)))[m.rawIndex] == 1;
  }

  /** Why a candidate was turned away before selection. */
  ghost predicate TooLarge(cost: Cost, budget: nat, prepared: seq<Candidate>, r: Rejection) {
    exists c :: c in prepared && c.full.rawIndex == r.rawIndex && !Fits(cost, budget, [c.minimum])
                && r.reason == if c.full.atomic then ProofExceedsBudget else EvidenceExceedsBudget
  }

  /** Candidates whose minimum does not even fit alone are rejected. */
  method FilterViable(cost: Cost, budget: nat, prepared: seq<Candidate>)
    returns (viable: seq<Candidate>, rejected: seq<Rejection>)
    requires Ranked(Fulls(prepared))
    ensures Ranked(Fulls(viable)) && Partition(Fulls(prepared), Fulls(viable), rejected)
    ensures forall c :: c in viable <==> c in prepared && cost([], View([c.minimum])) <= budget
    ensures forall r | r in rejected :: TooLarge(cost, budget, prepared, r)
  {
    viable, rejected := [], [];
    for k := 0 to |prepared|
      invariant Partition(Fulls(prepared[..k]), Fulls(viable), rejected)
      invariant forall c :: c in viable <==> c in prepared[..k] && Fits(cost, budget, [c.minimum])
      invariant Ranked(Fulls(viable))
      invariant forall r | r in rejected :: TooLarge(cost, budget, prepared, r)
    {
      var c := prepared[k];
      assert Fulls(prepared[..k + 1]) == Fulls(prepared[..k]) + [c.full];
      if !Fits(cost, budget, [c.minimum]) {
        var reason := if c.full.atomic then ProofExceedsBudget else EvidenceExceedsBudget;
        PartitionRejects(Fulls(prepared[..k]), Fulls(viable), rejected, c.full, reason);
        rejected := rejected + [Rejection(c.full.rawIndex, reason)];
      } else {
        PartitionKeeps(Fulls(prepared[..k]), Fulls(viable), rejected, c.full, c.full);
        RankedGrows(prepared, viable, k);
        assert Fulls(viable + [c]) == Fulls(viable) + [c.full];
        viable := viable + [c];
      }
    }
    assert prepared[..|prepared|] == prepared;
  }

  lemma RankedGrows(prepared: seq<Candidate>, viable: seq<Candidate>, k: nat)
    requires Ranked(Fulls(prepared)) && Ranked(Fulls(viable)) && k < |prepared|
    requires forall c | c in viable :: c in prepared[..k]
    ensures Ranked(Fulls(viable + [prepared[k]]))
  {
    var grown := viable + [prepared[k]];
    forall i, l | 0 <= i < l < |grown| ensures Fulls(grown)[i].rawIndex < Fulls(grown)[l].rawIndex {
      assert viable[i] in prepared[..k];
      var j :| 0 <= j < k && prepared[..k][j] == viable[i];
      assert Fulls(prepared)[j].rawIndex < Fulls(prepared)[k].rawIndex;
      if l < |viable| { assert Fulls(viable)[i].rawIndex < Fulls(viable)[l].rawIndex; }
    }
  }

  // ---------------------------------------------------------------------------
  // Selection
  // ---------------------------------------------------------------------------

  /** The minimums of the chosen positions among the first `n`, in rank order. */
  function Chosen(viable: seq<Candidate>, positions: set<nat>, n: nat): (ms: seq<Memory>)
    requires n <= |viable|
    ensures forall m | m in ms :: exists i :: 0 <= i < n && i in positions && m == viable[i].minimum
  {
    if n == 0 then []
    else Chosen(viable, positions, n - 1) + (if n - 1 in positions then [viable[n - 1].minimum] else [])
  }

  /** The chosen minimums fit together. */
  predicate SetFits(cost: Cost, budget: nat, viable: seq<Candidate>, positions: set<nat>) {
    Fits(cost, budget, Chosen(viable, positions, |viable|))
  }

  predicate PairFits(cost: Cost, budget: nat, viable: seq<Candidate>, a: nat, p: nat) {
    a < |viable| && p < |viable| && a != p && SetFits(cost, budget, viable, {a, p})
  }

  /** The reservation the source aims at: the earliest candidate with any fitting partner,
      and the earliest of its partners. */
  ghost predicate IsReserved(cost: Cost, budget: nat, viable: seq<Candidate>, pair: Option<(nat, nat)>) {
    match pair
    case None => forall a: nat, p: nat :: !PairFits(cost, budget, viable, a, p)
    case Some((a, p)) =>
      && PairFits(cost, budget, viable, a, p)
      && (forall b: nat, q: nat | b < a :: !PairFits(cost, budget, viable, b, q))
      && (forall q: nat | q < p :: !PairFits(cost, budget, viable, a, q))
  }

  method FirstPartner(cost: Cost, budget: nat, viable: seq<Candidate>, anchor: nat) returns (partner: Option<nat>)
    ensures partner.None? <==> forall q: nat :: !PairFits(cost, budget, viable, anchor, q)
    ensures partner.Some? ==> PairFits(cost, budget, viable, anchor, partner.value)
                              && forall q: nat | q < partner.value :: !PairFits(cost, budget, viable, anchor, q)
  {
    for q := 0 to |viable|
      invariant forall r: nat | r < q :: !PairFits(cost, budget, viable, anchor, r)
    {
      if PairFits(cost, budget, viable, anchor, q) { return Some(q); }
    }
    return None;
  }

  method ReservePair(cost: Cost, budget: nat, viable: seq<Candidate>) returns (pair: Option<(nat, nat)>)
    ensures IsReserved(cost, budget, viable, pair)
  {
    for anchor := 0 to |viable|
      invariant forall b: nat, q: nat | b < anchor :: !PairFits(cost, budget, viable, b, q)
    {
      var partner := FirstPartner(cost, budget, viable, anchor);
      if partner.Some? { return Some((anchor, partner.value)); }
    }
    return None;
  }

  /** The anchor is always the better ranked of the two. */
  lemma AnchorLeads(cost: Cost, budget: nat, viable: seq<Candidate>, a: nat, p: nat)
    requires IsReserved(cost, budget, viable, Some((a, p)))
    ensures a < p
  {
    assert {a, p} == {p, a};
    if p < a { assert PairFits(cost, budget, viable, p, a); }
  }

  /** What is reserved before the greedy pass. */
  function Initial(pair: Option<(nat, nat)>, n: nat): set<nat> {
    match pair
    case Some((a, p)) => {a, p}
    case None => if n == 0 then {} else {0}
  }

  /** The positions below `n` that are selected, and the reservation. */
  ghost function Upto(initial: set<nat>, selected: set<nat>, n: nat): set<nat> {
    initial + set i | i in selected && i < n
  }

  /** Position `i` is selected exactly when it is reserved or fits what was selected before it. */
  ghost predicate Greedy(
      cost: Cost, budget: nat, viable: seq<Candidate>, initial: set<nat>, selected: set<nat>, i: nat)
  {
    i in selected <==> i in initial || SetFits(cost, budget, viable, Upto(initial, selected, i) + {i})
  }

  method FillGreedily(cost: Cost, budget: nat, viable: seq<Candidate>, initial: set<nat>) returns (selected: set<nat>)
    requires forall i | i in initial :: i < |viable|
    requires initial != {} ==> SetFits(cost, budget, viable, initial)
    ensures initial <= selected && forall i | i in selected :: i < |viable|
    ensures selected != {} ==> SetFits(cost, budget, viable, selected)
    ensures forall i: nat | i < |viable| :: Greedy(cost, budget, viable, initial, selected, i)
  {
    selected := initial;
    for k := 0 to |viable|
      invariant initial <= selected && forall i | i in selected :: i < |viable| && (i < k || i in initial)
      invariant selected != {} ==> SetFits(cost, budget, viable, selected)
      invariant forall i: nat | i < k :: Greedy(cost, budget, viable, initial, selected, i)
    {
      ghost var before := selected;
      assert Upto(initial, before, k) == before;
      if k !in selected {
        var proposed := selected + {k};
        if SetFits(cost, budget, viable, proposed) { selected := proposed; }
      }
      forall i: nat | i <= k ensures Upto(initial, selected, i) == Upto(initial, before, i) { }
      assert Greedy(cost, budget, viable, initial, selected, k);
      forall i: nat | i < k ensures Greedy(cost, budget, viable, initial, selected, i) {
        assert Greedy(cost, budget, viable, initial, before, i);
      }
    }
  }

  /** Showing more of the viable minimums never costs less. */
  ghost predicate Monotone(cost: Cost, viable: seq<Candidate>) {
    forall s: set<nat>, t: set<nat> | s <= t ::
      cost([], View(Chosen(viable, s, |viable|))) <= cost([], View(Chosen(viable, t, |viable|)))
  }

  /** The selected minimums, and a rejection for every viable candidate that was not selected. */
  method Retain(viable: seq<Candidate>, selected: set<nat>) returns (kept: seq<Memory>, rejected: seq<Rejection>)
    requires AllMinimums(viable)
    ensures kept == Chosen(viable, selected, |viable|)
    ensures Partition(Fulls(viable), kept, rejected)
    ensures forall r | r in rejected :: r.reason == BudgetExhausted
              && exists i: nat :: i < |viable| && i !in selected && viable[i].full.rawIndex == r.rawIndex
  {
    kept, rejected := [], [];
    for k := 0 to |viable|
      invariant kept == Chosen(viable, selected, k)
      invariant Partition(Fulls(viable[..k]), kept, rejected)
      invariant forall r | r in rejected :: r.reason == BudgetExhausted
                  && exists i: nat :: i < k && i !in selected && viable[i].full.rawIndex == r.rawIndex
    {
      var c := viable[k];
      assert Fulls(viable[..k + 1]) == Fulls(viable[..k]) + [c.full];
      if k in selected {
        PartitionKeeps(Fulls(viable[..k]), kept, rejected, c.full, c.minimum);
        kept := kept + [c.minimum];
      } else {
        PartitionRejects(Fulls(viable[..k]), kept, rejected, c.full, BudgetExhausted);
        rejected := rejected + [Rejection(c.full.rawIndex, BudgetExhausted)];
      }
    }
    assert viable[..|viable|] == viable;
  }

  lemma {:induction false} ChosenIsRanked(viable: seq<Candidate>, positions: set<nat>, n: nat)
    requires n <= |viable| && AllMinimums(viable) && Ranked(Fulls(viable))
    ensures Ranked(Chosen(viable, positions, n))
  {
    if n > 0 {
      ChosenIsRanked(viable, positions, n - 1);
      var rest := Chosen(viable, positions, n - 1);
      forall k | 0 <= k < |rest| ensures rest[k].rawIndex < Fulls(viable)[n - 1].rawIndex {
        assert rest[k] in rest;
        var i: nat :| i < n - 1 && i in positions && rest[k] == viable[i].minimum;
        assert Fulls(viable)[i].rawIndex < Fulls(viable)[n - 1].rawIndex;
      }
    }
  }

  lemma {:induction false} ChosenSize(viable: seq<Candidate>, positions: set<nat>, n: nat)
    requires n <= |viable|
    ensures |Chosen(viable, positions, n)| == |set i | i in positions && i < n|
  {
    var below := set i | i in positions && i < n;
    if n == 0 {
      assert below == {};
    } else {
      ChosenSize(viable, positions, n - 1);
      var before := set i | i in positions && i < n - 1;
      assert below == before + (if n - 1 in positions then {n - 1} else {});
    }
  }

  // ---------------------------------------------------------------------------
  // Enrichment
  // ---------------------------------------------------------------------------

  /** The first `n` facts of a memory. */
  function Shorten(m: Memory, n: nat): Memory
    requires n <= |m.facts|
  {
    m.(facts := m.facts[..n])
  }

  /** How position `p` of `base` settles, `base` holding the final memories before `p` and the
      minimums from `p` on: atomic evidence is upgraded as a whole if that fits; other
      evidence gains facts one at a time until one does not fit. */
  ghost predicate Settled(cost: Cost, budget: nat, c: Candidate, base: seq<Memory>, p: nat, x: Memory) {
    && p < |base|
    && if c.full.atomic then
         x == if c.minimum.compacted && Fits(cost, budget, base[p := c.full]) then c.full else c.minimum
       else
         && 1 <= |x.facts| <= |c.full.facts|
         && x == Shorten(c.full, |x.facts|)
         && (forall n | 1 < n <= |x.facts| :: Fits(cost, budget, base[p := Shorten(c.full, n)]))
         && (|x.facts| < |c.full.facts| ==> !Fits(cost, budget, base[p := Shorten(c.full, |x.facts| + 1)]))
  }

  method EnrichOne(cost: Cost, budget: nat, c: Candidate, base: seq<Memory>, p: nat) returns (cur: seq<Memory>)
    requires p < |base| && base[p] == c.minimum && IsMinimum(c.full, c.minimum)
    requires Fits(cost, budget, base)
    ensures |cur| == |base| && cur == base[p := cur[p]]
    ensures Settled(cost, budget, c, base, p, cur[p]) && Fits(cost, budget, cur)
  {
    cur := base;
    if c.full.atomic {
      if c.minimum.compacted {
        var enriched := cur[p := c.full];
        if Fits(cost, budget, enriched) { cur := enriched; }
      }
    } else {
      for n := 1 to |c.full.facts|
        invariant cur == base[p := Shorten(c.full, n)]
        invariant forall k | 1 < k <= n :: Fits(cost, budget, base[p := Shorten(c.full, k)])
        invariant Fits(cost, budget, cur)
      {
        var enriched := cur[p := cur[p].(facts := cur[p].facts + [c.full.facts[n]])];
        assert c.full.facts[..n + 1] == c.full.facts[..n] + [c.full.facts[n]];
        assert enriched == base[p := Shorten(c.full, n + 1)];
        if !Fits(cost, budget, enriched) { return; }
        cur := enriched;
      }
    }
  }

  predicate FoundAt(cs: seq<Candidate>, m: Memory, j: nat) {
    j < |cs| && m == cs[j].minimum
  }

  /** `m` is the minimum of one of the candidates in [lo, hi). */
  ghost predicate From(cs: seq<Candidate>, m: Memory, lo: nat, hi: nat) {
    exists j: nat :: lo <= j < hi && FoundAt(cs, m, j)
  }

  ghost predicate SettledAt(cost: Cost, budget: nat, cs: seq<Candidate>, kept: seq<Memory>, final: seq<Memory>, p: nat)
    requires p < |kept| == |final|
  {
    exists c :: c in cs && c.minimum == kept[p] && Settled(cost, budget, c, final[..p] + kept[p..], p, final[p])
  }

  /** The dictionary from raw index to position. */
  function Positions(kept: seq<Memory>): (d: map<nat, nat>)
    requires Ranked(kept)
    ensures forall r | r in d :: d[r] < |kept| && kept[d[r]].rawIndex == r
    ensures forall p | 0 <= p < |kept| :: kept[p].rawIndex in d
  {
    map p: nat | p < |kept| :: kept[p].rawIndex := p
  }

  /** The candidate found at position `p` is the next one to settle. */
  lemma NextIsDue(cs: seq<Candidate>, kept: seq<Memory>, k: nat, q: nat, p: nat)
    requires Ranked(Fulls(cs)) && AllMinimums(cs) && Ranked(kept) && k < |cs| && q <= |kept| && p < |kept|
    requires kept[p].rawIndex == cs[k].full.rawIndex
    requires forall i | 0 <= i < q :: From(cs, kept[i], 0, k)
    requires forall i | q <= i < |kept| :: From(cs, kept[i], k, |cs|)
    ensures p == q && kept[p] == cs[k].minimum
    ensures forall i | q < i < |kept| :: From(cs, kept[i], k + 1, |cs|)
  {
    if p < q { FromIsRanked(cs, kept[p], 0, k, k); }
    if q < p { FromIsRanked(cs, kept[q], k, |cs|, k); }
    FromIsRanked(cs, kept[p], k, |cs|, k);
    forall i | q < i < |kept| ensures From(cs, kept[i], k + 1, |cs|) {
      FromIsRanked(cs, kept[i], k, |cs|, k);
    }
  }

  /** Positions of a ranked list compare as its raw indices do. */
  lemma FromIsRanked(cs: seq<Candidate>, m: Memory, lo: nat, hi: nat, k: nat)
    requires Ranked(Fulls(cs)) && AllMinimums(cs) && k < |cs| && From(cs, m, lo, hi)
    ensures hi <= k ==> m.rawIndex < cs[k].full.rawIndex
    ensures lo >= k ==> m.rawIndex >= cs[k].full.rawIndex
    ensures (lo == k && m.rawIndex != cs[k].full.rawIndex) ==> From(cs, m, k + 1, hi)
    ensures (lo == k && m.rawIndex == cs[k].full.rawIndex) ==> m == cs[k].minimum
  {
    var j: nat :| lo <= j < hi && FoundAt(cs, m, j);
    assert j < k ==> Fulls(cs)[j].rawIndex < Fulls(cs)[k].rawIndex;
    assert k < j ==> Fulls(cs)[k].rawIndex < Fulls(cs)[j].rawIndex;
  }

  lemma StaySettled(cost: Cost, budget: nat, cs: seq<Candidate>, kept: seq<Memory>,
                    before: seq<Memory>, after: seq<Memory>, q: nat)
    requires q < |kept| == |before| == |after| && after == before[q := after[q]]
    requires forall p | 0 <= p < q :: SettledAt(cost, budget, cs, kept, before, p)
    ensures forall p | 0 <= p < q :: SettledAt(cost, budget, cs, kept, after, p)
  {
    forall p | 0 <= p < q ensures SettledAt(cost, budget, cs, kept, after, p) {
      assert after[..p] == before[..p] && after[p] == before[p];
      assert SettledAt(cost, budget, cs, kept, before, p);
    }
  }

  /** The first `k` candidates have settled the first `q` positions. */
  ghost predicate EnrichedUpto(cost: Cost, budget: nat, cs: seq<Candidate>, kept: seq<Memory>, cur: seq<Memory>,
                               k: nat, q: nat) {
    && q <= |kept| == |cur| && cur[q..] == kept[q..]
    && (forall i | 0 <= i < q :: From(cs, kept[i], 0, k))
    && (forall i | q <= i < |kept| :: From(cs, kept[i], k, |cs|))
    && (forall p | 0 <= p < q :: SettledAt(cost, budget, cs, kept, cur, p))
    && (cur != [] ==> Fits(cost, budget, cur))
  }

  /** The enrichment pass over all candidates, in rank order. */
  method Enrich(cost: Cost, budget: nat, cs: seq<Candidate>, kept: seq<Memory>) returns (cur: seq<Memory>)
    requires Ranked(Fulls(cs)) && AllMinimums(cs) && Ranked(kept)
    requires forall i | 0 <= i < |kept| :: From(cs, kept[i], 0, |cs|)
    requires kept != [] ==> Fits(cost, budget, kept)
    ensures |cur| == |kept| && (cur != [] ==> Fits(cost, budget, cur))
    ensures forall p | 0 <= p < |kept| :: SettledAt(cost, budget, cs, kept, cur, p)
  {
    cur := kept;
    var positions := Positions(kept);
    ghost var q: nat := 0;
    for k := 0 to |cs|
      invariant EnrichedUpto(cost, budget, cs, kept, cur, k, q)
    {
      var c := cs[k];
      if c.full.rawIndex in positions {
        var p := positions[c.full.rawIndex];
        NextIsDue(cs, kept, k, q, p);
        assert cur[p] == cur[q..][0] == kept[q..][0];
        var next := EnrichOne(cost, budget, c, cur, p);
        DueStep(cost, budget, cs, kept, cur, next, k, q);
        cur, q := next, q + 1;
      } else {
        NotDueStep(cost, budget, cs, kept, cur, k, q);
      }
    }
    assert q < |kept| ==> From(cs, kept[q], |cs|, |cs|);
  }

  lemma DueStep(cost: Cost, budget: nat, cs: seq<Candidate>, kept: seq<Memory>, cur: seq<Memory>, next: seq<Memory>,
                k: nat, q: nat)
    requires k < |cs| && q < |kept| && EnrichedUpto(cost, budget, cs, kept, cur, k, q)
    requires kept[q] == cs[k].minimum
    requires forall i | q < i < |kept| :: From(cs, kept[i], k + 1, |cs|)
    requires |next| == |cur| && next == cur[q := next[q]]
    requires Settled(cost, budget, cs[k], cur, q, next[q]) && Fits(cost, budget, next)
    ensures EnrichedUpto(cost, budget, cs, kept, next, k + 1, q + 1)
  {
    assert cur == cur[..q] + kept[q..];
    assert next[..q] == cur[..q];
    assert next[..q] + kept[q..] == cur;
    assert SettledAt(cost, budget, cs, kept, next, q);
    StaySettled(cost, budget, cs, kept, cur, next, q);
    assert next[q + 1..] == cur[q..][1..] == kept[q..][1..] == kept[q + 1..];
    assert FoundAt(cs, kept[q], k);
    forall i | 0 <= i < q ensures From(cs, kept[i], 0, k + 1) {
      assert From(cs, kept[i], 0, k);
      var j: nat :| 0 <= j < k && FoundAt(cs, kept[i], j);
    }
  }

  lemma NotDueStep(cost: Cost, budget: nat, cs: seq<Candidate>, kept: seq<Memory>, cur: seq<Memory>, k: nat, q: nat)
    requires Ranked(Fulls(cs)) && AllMinimums(cs) && k < |cs|
    requires EnrichedUpto(cost, budget, cs, kept, cur, k, q)
    requires forall i | 0 <= i < |kept| :: kept[i].rawIndex != cs[k].full.rawIndex
    ensures EnrichedUpto(cost, budget, cs, kept, cur, k + 1, q)
  {
    forall i | q <= i < |kept| ensures From(cs, kept[i], k + 1, |cs|) {
      FromIsRanked(cs, kept[i], k, |cs|, k);
    }
    forall i | 0 <= i < q ensures From(cs, kept[i], 0, k + 1) {
      assert From(cs, kept[i], 0, k);
      var j: nat :| 0 <= j < k && FoundAt(cs, kept[i], j);
    }
  }

  // ---------------------------------------------------------------------------
  // The whole packing
  // ---------------------------------------------------------------------------

  /** A kept memory is its source whole, one best complete path of it, or a non-empty prefix
      of its facts when it is not an atomic proof. */
  ghost predicate KeptFormOf(full: Memory, x: Memory) {
    if full.atomic then
      x == full || (exists b: nat :: Best(full, b) && x == Compact(full, full.paths[b], |Signatures(full)| != 1))
    else
      1 <= |x.facts| <= |full.facts| && x == Shorten(full, |x.facts|)
  }

  ghost predicate KeptFrom(memories: seq<Memory>, x: Memory) {
    exists full :: full in memories && full.rawIndex == x.rawIndex && KeptFormOf(full, x)
  }

  lemma SettledIsKeptForm(cost: Cost, budget: nat, cs: seq<Candidate>, kept: seq<Memory>, cur: seq<Memory>, p: nat)
    requires AllMinimums(cs) && p < |kept| == |cur| && SettledAt(cost, budget, cs, kept, cur, p)
    ensures KeptFrom(Fulls(cs), cur[p]) && cur[p].rawIndex == kept[p].rawIndex
  {
    var c :| c in cs && c.minimum == kept[p] && Settled(cost, budget, c, cur[..p] + kept[p..], p, cur[p]);
    var i :| 0 <= i < |cs| && cs[i] == c;
    assert Fulls(cs)[i] == c.full;
    assert KeptFormOf(c.full, cur[p]);
  }

  lemma SettledAll(
      cost: Cost, budget: nat, memories: seq<Memory>, cs: seq<Candidate>, kept: seq<Memory>, final: seq<Memory>)
    requires Fulls(cs) == Renderable(memories) && AllMinimums(cs) && Ranked(kept) && |kept| == |final|
    requires forall p | 0 <= p < |kept| :: SettledAt(cost, budget, cs, kept, final, p)
    ensures forall p | 0 <= p < |kept| :: final[p].rawIndex == kept[p].rawIndex
    ensures Ranked(final) && forall m | m in final :: KeptFrom(memories, m)
  {
    forall p | 0 <= p < |kept| ensures KeptFrom(memories, final[p]) && final[p].rawIndex == kept[p].rawIndex {
      SettledIsKeptForm(cost, budget, cs, kept, final, p);
      var full :| full in Fulls(cs) && full.rawIndex == final[p].rawIndex && KeptFormOf(full, final[p]);
      assert full in memories;
    }
  }

  lemma ViableThenChosen(prepared: seq<Candidate>, viable: seq<Candidate>, selected: set<nat>)
    requires forall c | c in viable :: c in prepared
    ensures forall m | m in Chosen(viable, selected, |viable|) :: From(prepared, m, 0, |prepared|)
  {
    forall m | m in Chosen(viable, selected, |viable|) ensures From(prepared, m, 0, |prepared|) {
      var i: nat :| i < |viable| && i in selected && m == viable[i].minimum;
      assert viable[i] in viable;
      var j :| 0 <= j < |prepared| && prepared[j] == viable[i];
      assert FoundAt(prepared, m, j);
    }
  }

  lemma PartitionCompose(cs: seq<Memory>, viable: seq<Memory>, kept: seq<Memory>, final: seq<Memory>,
                         early: seq<Rejection>, late: seq<Rejection>)
    requires Partition(cs, viable, early) && Partition(viable, kept, late)
    requires |final| == |kept| && forall p | 0 <= p < |kept| :: final[p].rawIndex == kept[p].rawIndex
    ensures Partition(cs, final, early + late)
  {
    assert Raws(final) == Raws(kept);
    assert RejectedRaws(early + late) == RejectedRaws(early) + RejectedRaws(late);
  }

  /** Chatter of the session gives way first: the longest prefix that fits with the memories. */
  method TrimSessions(cost: Cost, budget: nat, memories: seq<Memory>, sessions: seq<string>)
    returns (kept: nat, fits: bool)
    ensures kept <= |sessions|
    ensures forall k | kept < k <= |sessions| :: cost(sessions[..k], View(memories)) > budget
    ensures fits <==> cost(sessions[..kept], View(memories)) <= budget
    ensures !fits ==> kept == 0
  {
    kept := |sessions|;
    while cost(sessions[..kept], View(memories)) > budget && kept > 0
      invariant kept <= |sessions|
      decreases kept
      invariant forall k | kept < k <= |sessions| :: cost(sessions[..k], View(memories)) > budget
    {
      kept := kept - 1;
    }
    fits := cost(sessions[..kept], View(memories)) <= budget;
  }

  /** The outcome of packing; an emptied context renders as "" and counts no tokens. */
  datatype Packed = Packed(
    memories: seq<Memory>,
    sessions: seq<string>,
    rejected: seq<Rejection>,
    emptied: bool,
    tokens: nat)

  /** Reservation and greedy filling, stated as a whole: this determines `selected`. */
  ghost predicate Selects(
      cost: Cost, budget: nat, viable: seq<Candidate>, pair: Option<(nat, nat)>, selected: set<nat>)
  {
    && IsReserved(cost, budget, viable, pair)
    && Initial(pair, |viable|) <= selected
    && (forall i | i in selected :: i < |viable|)
    && (forall i: nat | i < |viable| :: Greedy(cost, budget, viable, Initial(pair, |viable|), selected, i))
  }

  /** With a monotone cost the selection is maximal: no further minimum can be added to it. */
  lemma SelectionIsMaximal(cost: Cost, budget: nat, viable: seq<Candidate>, pair: Option<(nat, nat)>,
                           selected: set<nat>, i: nat)
    requires Monotone(cost, viable) && Selects(cost, budget, viable, pair, selected)
    requires i < |viable| && i !in selected
    ensures cost([], View(Chosen(viable, selected + {i}, |viable|))) > budget
  {
    var initial := Initial(pair, |viable|);
    assert Greedy(cost, budget, viable, initial, selected, i);
    assert Upto(initial, selected, i) + {i} <= selected + {i};
  }

  /** Reserve, then fill greedily. */
  method Select(cost: Cost, budget: nat, viable: seq<Candidate>)
    returns (selected: set<nat>, ghost pair: Option<(nat, nat)>)
    requires forall c | c in viable :: Fits(cost, budget, [c.minimum])
    ensures Selects(cost, budget, viable, pair, selected)
    ensures selected != {} ==> SetFits(cost, budget, viable, selected)
    ensures viable != [] ==> selected != {}
    ensures pair.Some? ==> |selected| >= 2
  {
    var reserved := ReservePair(cost, budget, viable);
    pair := reserved;
    var initial := Initial(reserved, |viable|);
    if initial == {0} {
      ChosenFirst(viable, |viable|);
      assert viable[0] in viable;
    }
    selected := FillGreedily(cost, budget, viable, initial);
    if pair.Some? { Cardinality(pair.value.0, pair.value.1, selected); }
  }

  lemma {:induction false} ChosenFirst(viable: seq<Candidate>, n: nat)
    requires 1 <= n <= |viable|
    ensures Chosen(viable, {0}, n) == [viable[0].minimum]
  {
    if n > 1 { ChosenFirst(viable, n - 1); }
  }

  lemma Cardinality(a: nat, p: nat, s: set<nat>)
    requires a != p && {a, p} <= s
    ensures |s| >= 2
  {
    assert s == {a, p} + (s - {a, p});
    assert |s| == |{a, p}| + |s - {a, p}|;
  }

  /** What the packing worked on, for stating its result. */
  datatype Run = Run(prepared: seq<Candidate>, viable: seq<Candidate>, pair: Option<(nat, nat)>, selected: set<nat>)

  /** The memories `final` follow from the ranked input exactly as the source promises. */
  ghost predicate PackedFrom(cost: Cost, budget: nat, memories: seq<Memory>, run: Run, final: seq<Memory>) {
    && Fulls(run.prepared) == Renderable(memories) && AllMinimums(run.prepared)
    && Ranked(Fulls(run.viable))
    && (forall c :: c in run.viable <==> c in run.prepared && Fits(cost, budget, [c.minimum]))
    && Selects(cost, budget, run.viable, run.pair, run.selected)
    && var kept := Chosen(run.viable, run.selected, |run.viable|);
       |final| == |kept| && forall p | 0 <= p < |kept| :: SettledAt(cost, budget, run.prepared, kept, final, p)
  }

  /** Every rejection has its reason. */
  ghost predicate Explained(cost: Cost, budget: nat, run: Run, rejected: seq<Rejection>) {
    forall r | r in rejected ::
      || TooLarge(cost, budget, run.prepared, r)
      || (r.reason == BudgetExhausted
          && exists i: nat :: i < |run.viable| && i !in run.selected && run.viable[i].full.rawIndex == r.rawIndex)
  }

  method PackMemories(cost: Cost, budget: nat, memories: seq<Memory>)
    returns (final: seq<Memory>, rejected: seq<Rejection>, ghost run: Run)
    requires Ranked(memories)
    ensures PackedFrom(cost, budget, memories, run, final)
    ensures Explained(cost, budget, run, rejected)
    ensures Partition(Renderable(memories), final, rejected)
    ensures Ranked(final) && forall m | m in final :: KeptFrom(memories, m)
    ensures final != [] ==> Fits(cost, budget, final)
    ensures run.viable != [] ==> final != []
    ensures run.pair.Some? ==> |final| >= 2
  {
    var prepared := Prepare(memories);
    RenderableIsRanked(memories);
    var viable, early := FilterViable(cost, budget, prepared);
    var selected, pair := Select(cost, budget, viable);
    var kept, late := Retain(viable, selected);
    ViableThenChosen(prepared, viable, selected);
    ChosenIsRanked(viable, selected, |viable|);
    assert selected == set i | i in selected && i < |viable|;
    ChosenSize(viable, selected, |viable|);
    final := Enrich(cost, budget, prepared, kept);
    SettledAll(cost, budget, memories, prepared, kept, final);
    PartitionCompose(Renderable(memories), Fulls(viable), kept, final, early, late);
    rejected := early + late;
    run := Run(prepared, viable, pair, selected);
  }

  /** The packing section of build_context: the budget is never exceeded, and only a context
      without memories is ever emptied. */
  method Pack(cost: Cost, budget: nat, memories: seq<Memory>, sessions: seq<string>) returns (r: Packed, ghost run: Run)
    requires Ranked(memories)
    ensures r.tokens <= budget
    ensures r.tokens == if r.emptied then 0 else cost(r.sessions, View(r.memories))
    ensures r.emptied <==> r.memories == [] && forall k | 0 <= k <= |sessions| :: cost(sessions[..k], []) > budget
    ensures if r.emptied then r.sessions == [] else
              && r.sessions <= sessions
              && forall k | |r.sessions| < k <= |sessions| :: cost(sessions[..k], View(r.memories)) > budget
    ensures PackedFrom(cost, budget, memories, run, r.memories)
    ensures Explained(cost, budget, run, r.rejected)
    ensures Partition(Renderable(memories), r.memories, r.rejected)
    ensures Ranked(r.memories) && forall m | m in r.memories :: KeptFrom(memories, m)
    ensures run.viable != [] ==> r.memories != []
    ensures run.pair.Some? ==> |r.memories| >= 2
  {
    var final, rejected;
    final, rejected, run := PackMemories(cost, budget, memories);
    var count, fits := TrimSessions(cost, budget, final, sessions);
    assert sessions[..0] == [] && (final == [] ==> View(final) == []);
    if fits {
      r := Packed(final, sessions[..count], rejected, false, cost(sessions[..count], View(final)));
    } else {
      r := Packed([], [], rejected, true, 0);
    }
  }

  lemma {:induction false} RenderableIsRanked(ms: seq<Memory>)
    requires Ranked(ms)
    ensures Ranked(Renderable(ms))
  {
    if ms != [] {
      var init := ms[..|ms| - 1];
      RenderableIsRanked(init);
      forall k | 0 <= k < |Renderable(init)| ensures Renderable(init)[k].rawIndex < ms[|ms| - 1].rawIndex {
        assert Renderable(init)[k] in Renderable(init);
      }
    }
  }
}
