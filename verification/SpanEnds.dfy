/** Span suppression by a prefix maximum, and parenthesis pairing (mesa_storage/legal_rules.py). */
module SpanEnds {

  datatype Span = Span(start: nat, end: nat)

  predicate Within(spans: seq<Span>, length: nat) {
    forall k | 0 <= k < |spans| :: spans[k].start < spans[k].end <= length
  }

  function Max(a: nat, b: nat): nat {
    if a < b then b else a
  }

  /** The furthest end of a span that starts at `i`; 0 when there is none. */
  function EndAt(spans: seq<Span>, i: nat): nat {
    if spans == [] then 0 else
      var last := spans[|spans| - 1];
      Max(EndAt(spans[..|spans| - 1], i), if last.start == i then last.end else 0)
  }

  /** The furthest end of a span that starts at `i` or before. */
  function FarEnd(spans: seq<Span>, i: nat): nat {
    Max(EndAt(spans, i), if i == 0 then 0 else FarEnd(spans, i - 1))
  }

  /** The ends by start. */
  method FillEnds(ends: array<nat>, spans: seq<Span>)
    requires ends.Length > 0 && Within(spans, ends.Length - 1)
    requires forall i | 0 <= i < ends.Length :: ends[i] == 0
    modifies ends
    ensures forall i | 0 <= i < ends.Length :: ends[i] == EndAt(spans, i)
  {
    for k := 0 to |spans|
      invariant forall i | 0 <= i < ends.Length :: ends[i] == EndAt(spans[..k], i)
    {
      EndAtStep(spans, k);
      ends[spans[k].start] := Max(ends[spans[k].start], spans[k].end);
    }
    assert spans[..|spans|] == spans;
  }

  lemma EndAtStep(spans: seq<Span>, k: nat)
    requires k < |spans|
    ensures forall i: nat :: EndAt(spans[..k + 1], i)
                             == Max(EndAt(spans[..k], i), if spans[k].start == i then spans[k].end else 0)
  {
    assert spans[..k + 1][..k] == spans[..k];
  }

  function PrefixMax(s: seq<nat>, i: nat): nat
    requires i < |s|
  {
    if i == 0 then s[0] else Max(PrefixMax(s, i - 1), s[i])
  }

  /** The running maximum, in place. */
  method RunningMaximum(ends: array<nat>)
    modifies ends
    ensures forall i | 0 <= i < ends.Length :: ends[i] == PrefixMax(old(ends[..]), i)
  {
    ghost var was := ends[..];
    var furthest: nat := 0;
    for i := 0 to ends.Length
      invariant forall j | 0 <= j < i :: ends[j] == PrefixMax(was, j)
      invariant forall j | i <= j < ends.Length :: ends[j] == was[j]
      invariant furthest == if i == 0 then 0 else PrefixMax(was, i - 1)
    {
      if ends[i] > furthest { furthest := ends[i]; }
      ends[i] := furthest;
    }
  }

  lemma {:induction false} FarEndIsPrefixMax(spans: seq<Span>, s: seq<nat>, i: nat)
    requires i < |s| && forall j | 0 <= j < |s| :: s[j] == EndAt(spans, j)
    ensures PrefixMax(s, i) == FarEnd(spans, i)
  {
    if i > 0 { FarEndIsPrefixMax(spans, s, i - 1); }
  }

  /** _span_ends: fill, then take the running maximum. */
  method ComputeSpanEnds(length: nat, spans: seq<Span>) returns (ends: array<nat>)
    requires Within(spans, length)
    ensures fresh(ends) && ends.Length == length + 1
    ensures forall i | 0 <= i <= length :: ends[i] == FarEnd(spans, i)
  {
    ends := new nat[length + 1](_ => 0);
    if spans == [] {
      forall i | 0 <= i <= length { NoSpans(i); }
      return;
    }
    FillEnds(ends, spans);
    ghost var filled := ends[..];
    RunningMaximum(ends);
    forall i | 0 <= i <= length ensures ends[i] == FarEnd(spans, i) { FarEndIsPrefixMax(spans, filled, i); }
  }

  lemma {:induction false} NoSpans(i: nat)
    ensures FarEnd([], i) == 0
  {
    if i > 0 { NoSpans(i - 1); }
  }

  ghost predicate Reaches(spans: seq<Span>, i: nat, x: nat) {
    exists s :: s in spans && s.start <= i && x <= s.end
  }

  lemma {:induction false} EndAtIsMaximum(spans: seq<Span>, i: nat, x: nat)
    requires x > 0
    ensures EndAt(spans, i) >= x <==> exists s :: s in spans && s.start == i && x <= s.end
  {
    if spans != [] {
      var init, last := spans[..|spans| - 1], spans[|spans| - 1];
      EndAtIsMaximum(init, i, x);
      forall s | s in spans ensures s in init || s == last {
        var k :| 0 <= k < |spans| && spans[k] == s;
        if k < |init| { assert init[k] == s; }
      }
    }
  }

  /** The prefix maximum answers as a search over all spans would. */
  lemma {:induction false} FarEndIsMaximum(spans: seq<Span>, i: nat, x: nat)
    requires x > 0
    ensures FarEnd(spans, i) >= x <==> Reaches(spans, i, x)
  {
    EndAtIsMaximum(spans, i, x);
    if i > 0 { FarEndIsMaximum(spans, i - 1, x); }
    if Reaches(spans, i, x) {
      var s :| s in spans && s.start <= i && x <= s.end;
      if i > 0 && s.start < i { assert Reaches(spans, i - 1, x); }
    }
  }

  // ---------------------------------------------------------------------------
  // Containment and overlap
  // ---------------------------------------------------------------------------

  predicate Contains(outer: Span, inner: Span) {
    outer.start <= inner.start && inner.end <= outer.end
  }

  predicate Overlaps(a: Span, b: Span) {
    a.start < b.end && b.start < a.end
  }

  ghost predicate Contained(spans: seq<Span>, m: Span) {
    exists s :: s in spans && Contains(s, m)
  }

  /** The test `end <= ends[start]` of outcomes, decision references and dates. */
  lemma ContainmentTest(spans: seq<Span>, m: Span)
    requires m.start < m.end
    ensures m.end <= FarEnd(spans, m.start) <==> Contained(spans, m)
  {
    FarEndIsMaximum(spans, m.start, m.end);
    if Reaches(spans, m.start, m.end) {
      var s :| s in spans && s.start <= m.start && m.end <= s.end;
      assert Contains(s, m);
    }
    if Contained(spans, m) {
      var s :| s in spans && Contains(s, m);
      assert Reaches(spans, m.start, m.end);
    }
  }

  /** The test `ends[end - 1] > start` of amounts. */
  lemma OverlapTest(spans: seq<Span>, m: Span)
    requires m.start < m.end
    ensures FarEnd(spans, m.end - 1) > m.start <==> exists s :: s in spans && Overlaps(s, m)
  {
    FarEndIsMaximum(spans, m.end - 1, m.start + 1);
    if Reaches(spans, m.end - 1, m.start + 1) {
      var s :| s in spans && s.start <= m.end - 1 && m.start + 1 <= s.end;
      assert Overlaps(s, m);
    }
    if s :| s in spans && Overlaps(s, m) { assert Reaches(spans, m.end - 1, m.start + 1); }
  }

  /** The spans that lie inside none of `spans`, in their order and as often as they occur. */
  ghost function Uncontained(spans: seq<Span>, ms: seq<Span>): seq<Span> {
    if ms == [] then [] else
      var last := ms[|ms| - 1];
      Uncontained(spans, ms[..|ms| - 1]) + (if Contained(spans, last) then [] else [last])
  }

  lemma UncontainedNext(spans: seq<Span>, ms: seq<Span>, k: nat)
    requires k < |ms|
    ensures Uncontained(spans, ms[..k + 1])
            == Uncontained(spans, ms[..k]) + (if Contained(spans, ms[k]) then [] else [ms[k]])
  {
    assert ms[..k + 1][..k] == ms[..k];
  }

  /** The spans that touch none of `digits`, in their order and as often as they occur. */
  ghost function Untouched(digits: seq<Span>, ms: seq<Span>): seq<Span> {
    if ms == [] then [] else
      var last := ms[|ms| - 1];
      Untouched(digits, ms[..|ms| - 1]) + (if exists s :: s in digits && Overlaps(s, last) then [] else [last])
  }

  lemma UntouchedNext(digits: seq<Span>, ms: seq<Span>, k: nat)
    requires k < |ms|
    ensures Untouched(digits, ms[..k + 1])
            == Untouched(digits, ms[..k]) + (if exists s :: s in digits && Overlaps(s, ms[k]) then [] else [ms[k]])
  {
    assert ms[..k + 1][..k] == ms[..k];
  }

  lemma {:induction false} UncontainedMembers(spans: seq<Span>, ms: seq<Span>, m: Span)
    ensures m in Uncontained(spans, ms) <==> m in ms && !Contained(spans, m)
  {
    if ms != [] {
      var n := |ms| - 1;
      UncontainedMembers(spans, ms[..n], m);
      assert ms == ms[..n] + [ms[n]];
    }
  }

  lemma {:induction false} UntouchedMembers(digits: seq<Span>, ms: seq<Span>, m: Span)
    ensures m in Untouched(digits, ms) <==> m in ms && !exists s :: s in digits && Overlaps(s, m)
  {
    if ms != [] {
      var n := |ms| - 1;
      UntouchedMembers(digits, ms[..n], m);
      assert ms == ms[..n] + [ms[n]];
    }
  }

  /** One pass of a rule: what lies inside an earlier span is dropped. */
  method FilterContained(length: nat, spans: seq<Span>, matches: seq<Span>) returns (kept: seq<Span>)
    requires Within(spans, length) && Within(matches, length)
    ensures Within(kept, length) && kept == Uncontained(spans, matches)
    ensures forall m :: m in kept <==> m in matches && !Contained(spans, m)
  {
    var ends := ComputeSpanEnds(length, spans);
    kept := [];
    for k := 0 to |matches|
      invariant forall i | 0 <= i <= length :: ends[i] == FarEnd(spans, i)
      invariant kept == Uncontained(spans, matches[..k])
    {
      var m := matches[k];
      ContainmentTest(spans, m);
      UncontainedNext(spans, matches, k);
      if m.end > ends[m.start] { kept := kept + [m]; }
    }
    assert matches[..|matches|] == matches;
    forall m ensures m in kept <==> m in matches && !Contained(spans, m) { UncontainedMembers(spans, matches, m); }
    forall k | 0 <= k < |kept| ensures kept[k].start < kept[k].end <= length { assert kept[k] in matches; }
  }

  /** Written-out amounts that touch an amount in digits are dropped. */
  method FilterOverlapping(length: nat, digits: seq<Span>, matches: seq<Span>) returns (kept: seq<Span>)
    requires Within(digits, length) && Within(matches, length)
    ensures kept == Untouched(digits, matches)
    ensures forall m :: m in kept <==> m in matches && !exists s :: s in digits && Overlaps(s, m)
  {
    var ends := ComputeSpanEnds(length, digits);
    kept := [];
    for k := 0 to |matches|
      invariant forall i | 0 <= i <= length :: ends[i] == FarEnd(digits, i)
      invariant kept == Untouched(digits, matches[..k])
    {
      var m := matches[k];
      OverlapTest(digits, m);
      UntouchedNext(digits, matches, k);
      if !(ends[m.end - 1] > m.start) { kept := kept + [m]; }
    }
    assert matches[..|matches|] == matches;
    forall m ensures m in kept <==> m in matches && !exists s :: s in digits && Overlaps(s, m) {
      UntouchedMembers(digits, matches, m);
    }
  }

  // ---------------------------------------------------------------------------
  // Outcomes, rule after rule
  // ---------------------------------------------------------------------------

  /** The spans accepted by the first `n` rules, the forwarding spans first. */
  ghost predicate Accepted(forwarding: seq<Span>, rules: seq<seq<Span>>, groups: seq<seq<Span>>, n: nat) {
    && n <= |rules| && |groups| == n + 1 && groups[0] == forwarding
    && forall r, m | 0 <= r < n :: m in groups[r + 1] <==> m in rules[r] && !EarlierContains(groups, r + 1, m)
  }

  /** A span accepted before group `r` contains `m`. */
  ghost predicate EarlierContains(groups: seq<seq<Span>>, r: nat, m: Span) {
    exists q :: 0 <= q < r && q < |groups| && Contained(groups[q], m)
  }

  function Flatten(groups: seq<seq<Span>>): seq<Span> {
    if groups == [] then [] else Flatten(groups[..|groups| - 1]) + groups[|groups| - 1]
  }

  lemma {:induction false} FlattenMembers(groups: seq<seq<Span>>, m: Span)
    ensures m in Flatten(groups) <==> exists q :: 0 <= q < |groups| && m in groups[q]
  {
    if groups != [] {
      var init := groups[..|groups| - 1];
      FlattenMembers(init, m);
      if q :| 0 <= q < |groups| && m in groups[q] {
        if q < |init| { assert m in init[q]; }
      }
      if q :| 0 <= q < |init| && m in init[q] { assert m in groups[q]; }
    }
  }

  lemma FlattenContains(groups: seq<seq<Span>>, m: Span)
    ensures Contained(Flatten(groups), m) <==> EarlierContains(groups, |groups|, m)
  {
    if Contained(Flatten(groups), m) {
      var s :| s in Flatten(groups) && Contains(s, m);
      FlattenMembers(groups, s);
      var q :| 0 <= q < |groups| && s in groups[q];
      assert Contained(groups[q], m);
    }
    if EarlierContains(groups, |groups|, m) {
      var q :| 0 <= q < |groups| && Contained(groups[q], m);
      var s :| s in groups[q] && Contains(s, m);
      FlattenMembers(groups, s);
    }
  }

  /** extract_outcomes over given matches: a match is accepted exactly when no span accepted
      for an earlier rule contains it; matches of its own rule never suppress it. */
  method ExtractOutcomes(length: nat, forwarding: seq<Span>, rules: seq<seq<Span>>)
    returns (items: seq<Span>, ghost groups: seq<seq<Span>>)
    requires Within(forwarding, length) && forall r | 0 <= r < |rules| :: Within(rules[r], length)
    ensures Accepted(forwarding, rules, groups, |rules|) && items == Flatten(groups)
  {
    items, groups := forwarding, [forwarding];
    assert [forwarding][..0] == [];
    for r := 0 to |rules|
      invariant Within(items, length) && items == Flatten(groups)
      invariant Accepted(forwarding, rules, groups, r)
    {
      var kept := FilterContained(length, items, rules[r]);
      ghost var grown := groups + [kept];
      assert grown[..|groups|] == groups;
      forall q, m | 0 <= q < r + 1
        ensures m in grown[q + 1] <==> m in rules[q] && !EarlierContains(grown, q + 1, m)
      {
        SamePrefix(groups, kept, q + 1, m);
        FlattenContains(groups, m);
      }
      items, groups := items + kept, grown;
    }
  }

  lemma SamePrefix(groups: seq<seq<Span>>, kept: seq<Span>, r: nat, m: Span)
    requires r <= |groups|
    ensures EarlierContains(groups + [kept], r, m) <==> EarlierContains(groups, r, m)
  {
    if EarlierContains(groups, r, m) {
      var q :| 0 <= q < r && q < |groups| && Contained(groups[q], m);
      assert (groups + [kept])[q] == groups[q];
    }
  }

  /** Nothing is lost: every match of every rule lies inside an accepted span. */
  lemma OutcomesCoverMatches(forwarding: seq<Span>, rules: seq<seq<Span>>, groups: seq<seq<Span>>, r: nat, m: Span)
    requires Accepted(forwarding, rules, groups, |rules|) && r < |rules| && m in rules[r]
    ensures Contained(Flatten(groups), m)
  {
    FlattenContains(groups, m);
    if m in groups[r + 1] {
      assert Contains(m, m);
      assert Contained(groups[r + 1], m);
    } else {
      var q :| 0 <= q < r + 1 && q < |groups| && Contained(groups[q], m);
    }
  }

  // ---------------------------------------------------------------------------
  // Parentheses
  // ---------------------------------------------------------------------------

  /** Opening minus closing parentheses in text[i..j). */
  function Balance(text: string, i: nat, j: nat): int
    requires i <= j <= |text|
    decreases j
  {
    if i == j then 0 else
      Balance(text, i, j - 1) + (if text[j - 1] == '(' then 1 else if text[j - 1] == ')' then -1 else 0)
  }

  /** The parenthesis at `o` is still open before position `i`. */
  ghost predicate OpenAt(text: string, o: nat, i: nat) {
    && o < i <= |text| && text[o] == '('
    && forall k | o < k <= i :: Balance(text, o, k) > 0
  }

  /** Position `j` is the first at which the depth of the parenthesis at `o` returns to zero. */
  ghost predicate Closes(text: string, o: nat, j: nat) {
    o < j < |text| && OpenAt(text, o, j) && Balance(text, o, j + 1) == 0
  }

  /** The stack holds exactly what is open, the depth of each being its height above the top. */
  ghost predicate StackAt(text: string, opens: seq<nat>, i: nat)
    requires i <= |text|
  {
    && (forall t | 0 <= t < |opens| :: OpenAt(text, opens[t], i) && Balance(text, opens[t], i) == |opens| - t)
    && (forall o: nat | OpenAt(text, o, i) :: o in opens)
  }

  lemma StackPush(text: string, opens: seq<nat>, i: nat)
    requires i < |text| && StackAt(text, opens, i) && text[i] == '('
    ensures StackAt(text, opens + [i], i + 1)
  {
    forall o: nat | OpenAt(text, o, i + 1) ensures o in opens + [i] {
      if o != i { assert OpenAt(text, o, i); }
    }
    assert Balance(text, i, i + 1) == 1;
  }

  lemma StackPop(text: string, opens: seq<nat>, i: nat)
    requires i < |text| && StackAt(text, opens, i) && text[i] == ')' && opens != []
    ensures StackAt(text, opens[..|opens| - 1], i + 1)
    ensures Closes(text, opens[|opens| - 1], i)
    ensures forall o: nat | Closes(text, o, i) :: o == opens[|opens| - 1]
  {
    var rest, top := opens[..|opens| - 1], opens[|opens| - 1];
    forall o: nat | OpenAt(text, o, i + 1) ensures o in rest {
      assert OpenAt(text, o, i) && Balance(text, o, i + 1) > 0;
      var t :| 0 <= t < |opens| && opens[t] == o;
      assert t < |rest| ==> rest[t] == o;
    }
    forall o: nat | Closes(text, o, i) ensures o == top {
      var t :| 0 <= t < |opens| && opens[t] == o;
    }
  }

  lemma StackStays(text: string, opens: seq<nat>, i: nat)
    requires i < |text| && StackAt(text, opens, i) && text[i] != '(' && (text[i] == ')' ==> opens == [])
    ensures StackAt(text, opens, i + 1)
    ensures forall o: nat :: !Closes(text, o, i)
  {
    forall o: nat | OpenAt(text, o, i + 1) ensures o in opens { assert OpenAt(text, o, i); }
    forall o: nat ensures !Closes(text, o, i) {
      assert OpenAt(text, o, i) ==> o in opens;
    }
  }

  /** The span of a marker up to the parenthesis that closes it. */
  ghost predicate ClosedMarker(text: string, markers: set<nat>, s: Span) {
    s.start in markers && s.end > 0 && Closes(text, s.start, s.end - 1)
  }

  /** The closed marker spans: for every marker, up to the parenthesis that closes it. */
  method MarkerSpans(text: string, markers: set<nat>) returns (spans: seq<Span>)
    ensures Within(spans, |text|)
    ensures forall s :: s in spans <==> ClosedMarker(text, markers, s)
  {
    spans := [];
    var opens: seq<nat> := [];
    for i := 0 to |text|
      invariant StackAt(text, opens, i) && Within(spans, |text|)
      invariant forall s :: s in spans <==> s.end <= i && ClosedMarker(text, markers, s)
    {
      if text[i] == '(' {
        StackPush(text, opens, i);
        OpeningClosesNothing(text, i);
        opens := opens + [i];
      } else if text[i] == ')' && opens != [] {
        StackPop(text, opens, i);
        var start := opens[|opens| - 1];
        opens := opens[..|opens| - 1];
        if start in markers {
          assert forall x :: x in spans + [Span(start, i + 1)] <==> x in spans || x == Span(start, i + 1);
          spans := spans + [Span(start, i + 1)];
        }
      } else {
        StackStays(text, opens, i);
      }
    }
  }

  lemma OpeningClosesNothing(text: string, i: nat)
    requires i < |text| && text[i] == '('
    ensures forall o: nat :: !Closes(text, o, i)
  {
    forall o: nat ensures !Closes(text, o, i) {
      assert OpenAt(text, o, i) ==> Balance(text, o, i) > 0;
    }
  }

  /** The date filter of extract_all_rules: a date is suppressed exactly when it lies inside a
      reference or inside a closed amendment marker. */
  method FilterDates(text: string, markers: set<nat>, refs: seq<Span>, dates: seq<Span>) returns (kept: seq<Span>)
    requires Within(refs, |text|) && Within(dates, |text|)
    ensures forall d :: d in kept <==> d in dates && !Contained(refs, d) && !InClosedMarker(text, markers, d)
  {
    var marked := MarkerSpans(text, markers);
    kept := FilterContained(|text|, refs + marked, dates);
    forall d ensures Contained(refs + marked, d) <==> Contained(refs, d) || InClosedMarker(text, markers, d) {
      SuppressedBy(text, markers, refs, marked, d);
    }
  }

  ghost predicate InClosedMarker(text: string, markers: set<nat>, d: Span) {
    exists s :: ClosedMarker(text, markers, s) && Contains(s, d)
  }

  lemma SuppressedBy(text: string, markers: set<nat>, refs: seq<Span>, marked: seq<Span>, d: Span)
    requires forall s :: s in marked <==> ClosedMarker(text, markers, s)
    ensures Contained(refs + marked, d) <==> Contained(refs, d) || InClosedMarker(text, markers, d)
  {
    if Contained(refs, d) {
      var s :| s in refs && Contains(s, d);
      assert s in refs + marked;
    }
    if InClosedMarker(text, markers, d) {
      var s :| ClosedMarker(text, markers, s) && Contains(s, d);
      assert s in marked;
      assert s in refs + marked;
    }
  }

  /** At most one parenthesis closes another, and each closes at most one. */
  lemma PairsAreUnique(text: string, o: nat, p: nat, j: nat, k: nat)
    requires Closes(text, o, j) && Closes(text, p, k)
    ensures o == p <==> j == k
  {
    if j == k {
      BalanceAdds(text, o, p, j + 1);
      BalanceAdds(text, p, o, j + 1);
    }
  }

  lemma {:induction false} BalanceAdds(text: string, i: nat, j: nat, k: nat)
    requires k <= |text|
    ensures i <= j <= k ==> Balance(text, i, k) == Balance(text, i, j) + Balance(text, j, k)
    decreases k
  {
    if i <= j < k { BalanceAdds(text, i, j, k - 1); }
  }
}
