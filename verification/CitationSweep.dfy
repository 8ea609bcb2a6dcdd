/** The overlap sweep of LegalEntityResolver.extract_citations
    (mesa_storage/legal_identity.py). */
module CitationSweep {
  import opened Wrappers

  /** A raw pattern match, in the order in which the patterns produced it. */
  datatype Citation = Citation(code: string, article: Option<string>, start: nat, end: nat)

  predicate Spans(ms: seq<Citation>, length: nat) {
    forall i | 0 <= i < |ms| :: ms[i].start < ms[i].end <= length
  }

  predicate Touch(a: Citation, b: Citation) {
    a.start <= b.end && b.start <= a.end
  }

  predicate Overlap(a: Citation, b: Citation) {
    a.start < b.end && b.start < a.end
  }

  /** Longer wins; between equals the earlier raw match wins. */
  predicate Beats(ms: seq<Citation>, j: nat, i: nat)
    requires j < |ms| && i < |ms|
  {
    var lj, li := ms[j].end as int - ms[j].start, ms[i].end as int - ms[i].start;
    lj > li || (lj == li && j < i)
  }

  /** Match `j` makes match `i` redundant: the rule over all pairs, without any order. */
  predicate Subsumes(ms: seq<Citation>, j: nat, i: nat) {
    && j < |ms| && i < |ms| && j != i
    && ms[j].code == ms[i].code
    && ms[j].article.Some?
    && if ms[i].article.None? then Touch(ms[j], ms[i])
       else ms[i].article == ms[j].article && Overlap(ms[j], ms[i]) && Beats(ms, j, i)
  }

  ghost predicate SubsumedWithin(ms: seq<Citation>, d: set<nat>, i: nat) {
    exists j :: j in d && Subsumes(ms, j, i)
  }

  ghost function Marked(ms: seq<Citation>, d: set<nat>): set<nat> {
    set i | i in d && SubsumedWithin(ms, d, i)
  }

  function Indices(ms: seq<Citation>): set<nat> {
    set i: nat {:trigger ms[i]} | i < |ms|
  }

  /** What one step of the sweep marks: the newcomer against the active matches. */
  ghost function PairMarks(ms: seq<Citation>, x: nat, active: set<nat>): set<nat> {
    (if SubsumedWithin(ms, active, x) then {x} else {}) + set i | i in active && Subsumes(ms, x, i)
  }

  /** The dropped matches ended before the newcomer starts, so they cannot interact. */
  lemma NewcomerOnlyMeetsActive(ms: seq<Citation>, length: nat, d: set<nat>, active: set<nat>, x: nat)
    requires Spans(ms, length) && x < |ms| && x !in d && active <= d <= Indices(ms)
    requires forall p | p in d :: ms[p].start <= ms[x].start
    requires forall p | p in d && ms[p].end >= ms[x].start :: p in active
    ensures Marked(ms, d + {x}) == Marked(ms, d) + PairMarks(ms, x, active)
  {
    var d' := d + {x};
    forall p | p in d && p !in active ensures !Subsumes(ms, p, x) && !Subsumes(ms, x, p) { }
    forall i | i in Marked(ms, d') ensures i in Marked(ms, d) + PairMarks(ms, x, active) {
      var j :| j in d' && Subsumes(ms, j, i);
      if i != x && j != x { assert SubsumedWithin(ms, d, i); }
      if i == x { assert SubsumedWithin(ms, active, x); }
    }
    forall i | i in Marked(ms, d) + PairMarks(ms, x, active) ensures i in Marked(ms, d') {
      if i in Marked(ms, d) {
        var j :| j in d && Subsumes(ms, j, i);
        assert SubsumedWithin(ms, d', i);
      } else if i == x {
        var j :| j in active && Subsumes(ms, j, x);
        assert SubsumedWithin(ms, d', x);
      } else {
        assert x in d' && Subsumes(ms, x, i);
        assert SubsumedWithin(ms, d', i);
      }
    }
  }

  // ---------------------------------------------------------------------------
  // The sweep
  // ---------------------------------------------------------------------------

  /** The indices that start at `offset`, among the first `n`, in raw order. */
  function Bucket(ms: seq<Citation>, offset: nat, n: nat): (b: seq<nat>)
    requires n <= |ms|
    ensures forall i | i in b :: i < n && ms[i].start == offset
    ensures forall i: nat | i < n && ms[i].start == offset :: i in b
    ensures forall k, l | 0 <= k < l < |b| :: b[k] < b[l]
  {
    if n == 0 then [] else
      var rest := Bucket(ms, offset, n - 1);
      assert forall k | 0 <= k < |rest| :: rest[k] in rest;
      if ms[n - 1].start == offset then rest + [n - 1] else rest
  }

  method FillBuckets(ms: seq<Citation>, length: nat) returns (starts: array<seq<nat>>)
    requires Spans(ms, length)
    ensures fresh(starts) && starts.Length == length + 1
    ensures forall o | 0 <= o <= length :: starts[o] == Bucket(ms, o, |ms|)
  {
    starts := new seq<nat>[length + 1](_ => []);
    for index := 0 to |ms|
      invariant forall o | 0 <= o <= length :: starts[o] == Bucket(ms, o, index)
    {
      starts[ms[index].start] := starts[ms[index].start] + [index];
    }
  }

  function ToSet(xs: seq<nat>): set<nat> {
    set x | x in xs
  }

  /** The members of `d` that have not ended before `offset`. */
  ghost function Alive(ms: seq<Citation>, d: set<nat>, offset: nat): set<nat> {
    set i | i in d && i < |ms| && ms[i].end >= offset
  }

  /** The list comprehension that drops what has ended. */
  method DropEnded(ms: seq<Citation>, active: seq<nat>, offset: nat) returns (kept: seq<nat>)
    requires ToSet(active) <= Indices(ms)
    ensures ToSet(kept) == Alive(ms, ToSet(active), offset)
  {
    kept := [];
    for k := 0 to |active|
      invariant ToSet(kept) == Alive(ms, ToSet(active[..k]), offset)
    {
      assert active[..k + 1] == active[..k] + [active[k]];
      assert ToSet(active[..k + 1]) == ToSet(active[..k]) + {active[k]};
      assert active[k] in ToSet(active);
      if ms[active[k]].end >= offset {
        assert ToSet(kept + [active[k]]) == ToSet(kept) + {active[k]};
        kept := kept + [active[k]];
      }
    }
    assert active[..|active|] == active;
  }

  /** The inner loop: compare the newcomer with every active match. */
  method Compare(ms: seq<Citation>, length: nat, x: nat, active: seq<nat>, subsumed: set<nat>) returns (marks: set<nat>)
    requires Spans(ms, length) && x < |ms|
    requires ToSet(active) <= Indices(ms) - {x}
    requires forall p | p in active :: p < |ms| && ms[p].start <= ms[x].start <= ms[p].end
    ensures marks == subsumed + PairMarks(ms, x, ToSet(active))
  {
    marks := subsumed;
    var item := ms[x];
    for k := 0 to |active|
      invariant marks == subsumed + PairMarks(ms, x, ToSet(active[..k]))
    {
      var p := active[k];
      assert p in ToSet(active);
      var prior := ms[p];
      assert active[..k + 1] == active[..k] + [p];
      MarksGrow(ms, x, ToSet(active[..k]), p);
      assert ToSet(active[..k + 1]) == ToSet(active[..k]) + {p};
      if item.code == prior.code {
        if item.article.None? && prior.article.Some? {
          marks := marks + {x};
        } else if prior.article.None? && item.article.Some? {
          marks := marks + {p};
        } else if item.article.Some? && item.article == prior.article && item.start < prior.end {
          var length, priorLength := item.end - item.start, prior.end - prior.start;
          marks := marks + {if length > priorLength || (length == priorLength && x < p) then p else x};
        }
      }
    }
    assert active[..|active|] == active;
  }

  lemma MarksGrow(ms: seq<Citation>, x: nat, active: set<nat>, p: nat)
    ensures PairMarks(ms, x, active + {p})
            == PairMarks(ms, x, active)
               + (if Subsumes(ms, p, x) then {x} else {}) + (if Subsumes(ms, x, p) then {p} else {})
  {
    if SubsumedWithin(ms, active + {p}, x) && !Subsumes(ms, p, x) {
      var j :| j in active + {p} && Subsumes(ms, j, x);
      assert j in active;
    }
    if SubsumedWithin(ms, active, x) {
      var j :| j in active && Subsumes(ms, j, x);
      assert j in active + {p};
    }
  }

  /** The indices whose turn has come before position `b` of the bucket at `offset`. */
  ghost function Done(ms: seq<Citation>, offset: nat, bucket: seq<nat>): set<nat> {
    (set i: nat | i < |ms| && ms[i].start < offset) + ToSet(bucket)
  }

  /** The bucketed one-pass sweep marks exactly what comparing all pairs marks. */
  method Sweep(ms: seq<Citation>, length: nat) returns (subsumed: set<nat>)
    requires Spans(ms, length)
    ensures subsumed == Marked(ms, Indices(ms))
  {
    var starts := FillBuckets(ms, length);
    subsumed := {};
    var active: seq<nat> := [];
    assert Done(ms, 0, []) == {};
    for offset := 0 to length + 1
      invariant forall o | 0 <= o <= length :: starts[o] == Bucket(ms, o, |ms|)
      invariant subsumed == Marked(ms, Done(ms, offset, []))
      invariant ToSet(active) <= Done(ms, offset, [])
      invariant Alive(ms, Done(ms, offset, []), offset) <= ToSet(active)
    {
      var bucket := starts[offset];
      BucketIsOffset(ms, offset);
      if bucket != [] {
        active := DropEnded(ms, active, offset);
        assert ToSet(active) == Alive(ms, Done(ms, offset, []), offset);
        subsumed, active := SweepBucket(ms, length, offset, bucket, active, subsumed);
      }
    }
    assert Done(ms, length + 1, []) == Indices(ms);
  }

  lemma BucketIsOffset(ms: seq<Citation>, offset: nat)
    ensures Done(ms, offset + 1, []) == Done(ms, offset, Bucket(ms, offset, |ms|))
    ensures Bucket(ms, offset, |ms|) == [] ==> Done(ms, offset + 1, []) == Done(ms, offset, [])
  {
    var bucket := Bucket(ms, offset, |ms|);
    forall i: nat ensures i in Done(ms, offset + 1, []) <==> i in Done(ms, offset, bucket) { }
  }

  /** Every match of one bucket meets the active ones, the earlier matches of its own bucket
      among them. */
  method SweepBucket(ms: seq<Citation>, length: nat, offset: nat, bucket: seq<nat>, before: seq<nat>, marked: set<nat>)
    returns (subsumed: set<nat>, active: seq<nat>)
    requires Spans(ms, length) && bucket == Bucket(ms, offset, |ms|)
    requires marked == Marked(ms, Done(ms, offset, []))
    requires ToSet(before) == Alive(ms, Done(ms, offset, []), offset)
    ensures subsumed == Marked(ms, Done(ms, offset, bucket))
    ensures ToSet(active) == Alive(ms, Done(ms, offset, bucket), offset)
  {
    subsumed, active := marked, before;
    for b := 0 to |bucket|
      invariant subsumed == Marked(ms, Done(ms, offset, bucket[..b]))
      invariant ToSet(active) == Alive(ms, Done(ms, offset, bucket[..b]), offset)
    {
      var x := bucket[b];
      ghost var d := Done(ms, offset, bucket[..b]);
      NextInBucket(ms, offset, b);
      forall p | p in active ensures p in d && p < |ms| && ms[p].end >= offset { assert p in ToSet(active); }
      subsumed := Compare(ms, length, x, active, subsumed);
      NewcomerOnlyMeetsActive(ms, length, d, ToSet(active), x);
      assert ToSet(active + [x]) == ToSet(active) + {x};
      active := active + [x];
    }
    assert bucket[..|bucket|] == bucket;
  }

  lemma NextInBucket(ms: seq<Citation>, offset: nat, b: nat)
    requires b < |Bucket(ms, offset, |ms|)|
    ensures var bucket := Bucket(ms, offset, |ms|);
            var d := Done(ms, offset, bucket[..b]);
            && bucket[b] < |ms| && ms[bucket[b]].start == offset && bucket[b] !in d
            && Done(ms, offset, bucket[..b + 1]) == d + {bucket[b]}
            && d <= Indices(ms)
            && forall p | p in d :: ms[p].start <= offset
  {
    var bucket := Bucket(ms, offset, |ms|);
    assert bucket[b] in bucket;
    assert bucket[..b + 1] == bucket[..b] + [bucket[b]];
    forall p | p in bucket[..b] ensures p in bucket && p < bucket[b] {
      var k :| 0 <= k < b && bucket[..b][k] == p;
      assert bucket[k] == p;
    }
  }

  // ---------------------------------------------------------------------------
  // Nothing is lost
  // ---------------------------------------------------------------------------

  /** Following "who subsumed it" always ends: at a survivor of the same code, and of the
      same article when there was one. */
  lemma {:induction false} Survivor(ms: seq<Citation>, length: nat, i: nat) returns (s: nat)
    requires Spans(ms, length) && i < |ms|
    ensures s < |ms| && s !in Marked(ms, Indices(ms))
    ensures ms[s].code == ms[i].code
    ensures ms[i].article.Some? ==> ms[s].article == ms[i].article
    ensures s != i ==> ms[s].article.Some?
    decreases ms[i].article.None?, length - (ms[i].end - ms[i].start), i
  {
    if i !in Marked(ms, Indices(ms)) { return i; }
    var j :| j in Indices(ms) && Subsumes(ms, j, i);
    s := Survivor(ms, length, j);
  }

  type Key = (string, Option<string>)

  function KeyOf(c: Citation): Key {
    (c.code, c.article)
  }

  /** Position `k` of `kept` holds key `key`, at or before raw index `i`. */
  predicate HoldsAt(ms: seq<Citation>, kept: seq<nat>, key: Key, i: nat, k: nat) {
    k < |kept| && kept[k] <= i && kept[k] < |ms| && KeyOf(ms[kept[k]]) == key
  }

  ghost predicate Holds(ms: seq<Citation>, kept: seq<nat>, key: Key, i: nat) {
    exists k :: HoldsAt(ms, kept, key, i, k)
  }

  ghost predicate Ascending(ms: seq<Citation>, kept: seq<nat>, skip: set<nat>, n: nat)
    requires n <= |ms|
  {
    && (forall k | 0 <= k < |kept| :: kept[k] < n && kept[k] !in skip)
    && (forall k, l | 0 <= k < l < |kept| :: kept[k] < kept[l] && KeyOf(ms[kept[k]]) != KeyOf(ms[kept[l]]))
  }

  lemma HoldsAfter(ms: seq<Citation>, kept: seq<nat>, key: Key, i: nat, x: nat)
    requires Holds(ms, kept, key, i)
    ensures Holds(ms, kept + [x], key, i)
  {
    var k :| HoldsAt(ms, kept, key, i, k);
    assert HoldsAt(ms, kept + [x], key, i, k);
  }

  /** The pass has dealt with the raw matches below `n`. */
  ghost predicate Deduplicated(ms: seq<Citation>, skip: set<nat>, kept: seq<nat>, n: nat) {
    && n <= |ms|
    && Ascending(ms, kept, skip, n)
    && forall i: nat | i < n && i !in skip :: Holds(ms, kept, KeyOf(ms[i]), i)
  }

  lemma KeepStep(ms: seq<Citation>, skip: set<nat>, kept: seq<nat>, n: nat)
    requires Deduplicated(ms, skip, kept, n) && n < |ms| && n !in skip
    requires forall k | 0 <= k < |kept| :: KeyOf(ms[kept[k]]) != KeyOf(ms[n])
    ensures Deduplicated(ms, skip, kept + [n], n + 1)
  {
    forall i: nat | i <= n && i !in skip ensures Holds(ms, kept + [n], KeyOf(ms[i]), i) {
      if i == n {
        assert HoldsAt(ms, kept + [n], KeyOf(ms[n]), n, |kept|);
      } else {
        HoldsAfter(ms, kept, KeyOf(ms[i]), i, n);
      }
    }
  }

  /** `seen` holds the keys of the matches kept so far. */
  ghost predicate Seen(ms: seq<Citation>, kept: seq<nat>, seen: set<Key>) {
    && (forall k | 0 <= k < |kept| :: kept[k] < |ms| && KeyOf(ms[kept[k]]) in seen)
    && (forall key | key in seen :: exists k :: 0 <= k < |kept| && kept[k] < |ms| && KeyOf(ms[kept[k]]) == key)
  }

  lemma SeenGrows(ms: seq<Citation>, kept: seq<nat>, seen: set<Key>, x: nat)
    requires Seen(ms, kept, seen) && x < |ms|
    ensures Seen(ms, kept + [x], seen + {KeyOf(ms[x])})
  {
    var grown := kept + [x];
    assert grown[|kept|] == x;
    forall key | key in seen + {KeyOf(ms[x])}
      ensures exists k :: 0 <= k < |grown| && grown[k] < |ms| && KeyOf(ms[grown[k]]) == key
    {
      if key in seen {
        var k :| 0 <= k < |kept| && kept[k] < |ms| && KeyOf(ms[kept[k]]) == key;
        assert grown[k] == kept[k];
      }
    }
  }

  lemma SeenHolds(ms: seq<Citation>, skip: set<nat>, kept: seq<nat>, seen: set<Key>, n: nat)
    requires n < |ms| && Ascending(ms, kept, skip, n) && Seen(ms, kept, seen) && KeyOf(ms[n]) in seen
    ensures Holds(ms, kept, KeyOf(ms[n]), n)
  {
    var k :| 0 <= k < |kept| && kept[k] < |ms| && KeyOf(ms[kept[k]]) == KeyOf(ms[n]);
    assert HoldsAt(ms, kept, KeyOf(ms[n]), n, k);
  }

  lemma SkipStep(ms: seq<Citation>, skip: set<nat>, kept: seq<nat>, n: nat)
    requires Deduplicated(ms, skip, kept, n) && n < |ms|
    requires n in skip || Holds(ms, kept, KeyOf(ms[n]), n)
    ensures Deduplicated(ms, skip, kept, n + 1)
  {
    forall i: nat | i < n + 1 && i !in skip ensures Holds(ms, kept, KeyOf(ms[i]), i) { }
  }

  /** The final pass over the survivors: one citation per (code, article), at the place of
      its first survivor. */
  method Deduplicate(ms: seq<Citation>, subsumed: set<nat>) returns (kept: seq<nat>)
    ensures Deduplicated(ms, subsumed, kept, |ms|)
  {
    kept := [];
    var seen: set<Key> := {};
    for i := 0 to |ms|
      invariant Deduplicated(ms, subsumed, kept, i)
      invariant Seen(ms, kept, seen)
    {
      var key := KeyOf(ms[i]);
      if i !in subsumed && key !in seen {
        KeepStep(ms, subsumed, kept, i);
        SeenGrows(ms, kept, seen, i);
        seen, kept := seen + {key}, kept + [i];
      } else {
        if i !in subsumed { SeenHolds(ms, subsumed, kept, seen, i); }
        SkipStep(ms, subsumed, kept, i);
      }
    }
  }

  /** What survival means on the page: no other match that names an article of the same code
      touches a match without one; and of two overlapping matches of one article the longer
      one stands, or the earlier of two equally long ones. */
  ghost predicate StandsClear(ms: seq<Citation>, i: nat)
    requires i < |ms|
  {
    forall j: nat | j < |ms| && j != i && ms[j].code == ms[i].code && ms[j].article.Some? ::
      Clear(ms[i], ms[j], i < j)
  }

  predicate Clear(mine: Citation, other: Citation, earlier: bool) {
    if mine.article.None? then other.end < mine.start || mine.end < other.start
    else mine.article == other.article ==>
      || other.end <= mine.start || mine.end <= other.start
      || other.end as int - other.start < mine.end as int - mine.start
      || (other.end as int - other.start == mine.end as int - mine.start && earlier)
  }

  lemma SurvivesIff(ms: seq<Citation>, i: nat)
    requires i < |ms|
    ensures i !in Marked(ms, Indices(ms)) <==> StandsClear(ms, i)
  {
    var all := Indices(ms);
    if StandsClear(ms, i) {
      forall j: nat | j < |ms| ensures !Subsumes(ms, j, i) {
        if j != i && ms[j].code == ms[i].code && ms[j].article.Some? { assert Clear(ms[i], ms[j], i < j); }
      }
    }
    if i !in Marked(ms, all) {
      forall j: nat | j < |ms| && j != i && ms[j].code == ms[i].code && ms[j].article.Some?
        ensures Clear(ms[i], ms[j], i < j)
      {
        assert j in all && !Subsumes(ms, j, i);
      }
    }
  }

  /** Some result cites `code`. */
  ghost predicate Cites(ms: seq<Citation>, kept: seq<nat>, code: string) {
    exists k :: 0 <= k < |kept| && kept[k] < |ms| && ms[kept[k]].code == code
  }

  /** extract_citations after pattern matching: exactly one result for every cited article,
      none repeated, every cited code present, and every result backed by an unsubsumed match. */
  method ExtractCitations(ms: seq<Citation>, length: nat) returns (kept: seq<nat>)
    requires Spans(ms, length)
    ensures Ascending(ms, kept, Marked(ms, Indices(ms)), |ms|)
    ensures forall k | 0 <= k < |kept| :: kept[k] < |ms| && StandsClear(ms, kept[k])
    ensures forall i: nat | i < |ms| && ms[i].article.Some? :: Holds(ms, kept, KeyOf(ms[i]), |ms|)
    ensures forall i: nat | i < |ms| :: Cites(ms, kept, ms[i].code)
  {
    var subsumed := Sweep(ms, length);
    kept := Deduplicate(ms, subsumed);
    forall k | 0 <= k < |kept| ensures StandsClear(ms, kept[k]) { SurvivesIff(ms, kept[k]); }
    forall i: nat | i < |ms|
      ensures Cites(ms, kept, ms[i].code)
      ensures ms[i].article.Some? ==> Holds(ms, kept, KeyOf(ms[i]), |ms|)
    {
      var s := Survivor(ms, length, i);
      var k: nat :| HoldsAt(ms, kept, KeyOf(ms[s]), s, k);
      assert ms[kept[k]].code == ms[i].code;
      assert ms[i].article.Some? ==> HoldsAt(ms, kept, KeyOf(ms[i]), |ms|, k);
    }
  }
}
