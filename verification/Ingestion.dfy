/** Resumable document upload: pinning one chunking plan across attempts, and the sweep
    that gives each chunk its article (mesa_api/v4_router.py, ingest_document). */
module Ingestion {
  import opened Wrappers
  import opened Chunking

  // ---------------------------------------------------------------------------
  // Plan pinning
  // ---------------------------------------------------------------------------

  predicate IsPlan(content: string, plan: seq<string>) {
    Concat(plan) == content && forall i | 0 <= i < |plan| :: plan[i] != ""
  }

  /** The first `n` chunks of a plan, by ordinal. */
  function Prefix(plan: seq<string>, n: nat): map<nat, string>
    requires n <= |plan|
  {
    map i: nat | i < n :: plan[i]
  }

  /** Every admitted chunk stands at its ordinal in the plan. */
  predicate Matches(admitted: map<nat, string>, plan: seq<string>) {
    forall i | i in admitted :: i < |plan| && plan[i] == admitted[i]
  }

  lemma {:induction false} ConcatCovers(plan: seq<string>, n: nat)
    requires n <= |plan| && forall i | 0 <= i < |plan| :: plan[i] != ""
    ensures |Concat(plan[..n])| <= |Concat(plan)|
    ensures n < |plan| ==> |Concat(plan[..n])| < |Concat(plan)|
  {
    if n < |plan| {
      var init := plan[..|plan| - 1];
      assert init[..n] == plan[..n];
      ConcatCovers(init, n);
    } else {
      assert plan[..n] == plan;
    }
  }

  /** A plan all of whose chunks stand in another plan of the same content is that plan. */
  lemma FullPlanIsUnique(content: string, p: seq<string>, q: seq<string>)
    requires IsPlan(content, p) && IsPlan(content, q)
    requires |p| <= |q| && q[..|p|] == p
    ensures p == q
  {
    ConcatCovers(q, |p|);
    assert q[..|q|] == q;
  }

  lemma PrefixMatches(plan: seq<string>, other: seq<string>, n: nat)
    requires n <= |plan|
    ensures Matches(Prefix(plan, n), other) <==> n <= |other| && other[..n] == plan[..n]
  {
    var admitted := Prefix(plan, n);
    if Matches(admitted, other) {
      if n > 0 { assert n - 1 in admitted; }
      assert forall i | 0 <= i < n :: i in admitted;
    } else if n <= |other| && other[..n] == plan[..n] {
      forall i | i in admitted ensures i < |other| && other[i] == admitted[i] { assert other[..n][i] == plan[..n][i]; }
    }
  }

  datatype Error = Interrupted | Ambiguous | Unsupported

  datatype Receipt = Receipt(chunkCount: nat, duplicate: bool)

  /** One PENDING or ACTIVE revision of one content. */
  class Revision {
    const content: string
    const legal: seq<string>
    const plain: seq<string>
    var admitted: map<nat, string>
    var frozen: bool
    var active: bool
    /** How many chunks are admitted, and the plan the first of them came from. */
    ghost var n: nat
    ghost var pin: seq<string>

    ghost predicate Valid()
      reads this
    {
      && content != "" && IsPlan(content, legal) && IsPlan(content, plain)
      && pin in {legal, plain}
      && n <= |pin| && admitted == Prefix(pin, n)
      && (frozen <==> n == |pin|)
      && (active ==> frozen)
    }

    constructor (content: string, legal: seq<string>, plain: seq<string>)
      requires content != "" && IsPlan(content, legal) && IsPlan(content, plain)
      ensures Valid() && n == 0 && !active
      ensures this.content == content && this.legal == legal && this.plain == plain
    {
      this.content, this.legal, this.plain := content, legal, plain;
      admitted, frozen, active := map[], false, false;
      n, pin := 0, legal;
    }

    /** The projection worker activates a revision whose manifest is frozen. */
    method Activate()
      requires Valid()
      modifies this`active
      ensures Valid() && active == (old(active) || frozen)
    {
      active := active || frozen;
    }

    /** The plan this attempt must follow. */
    method ChoosePlan(auto: bool) returns (r: Result<seq<string>, Error>)
      requires Valid()
      ensures r.Success? ==> r.value in {legal, plain} && (n > 0 ==> r.value == pin)
      ensures n == 0 ==> r == Success(if auto then legal else plain)
      ensures r.Failure? ==> r.error == Ambiguous
      ensures r.Failure? <==> 0 < n && Matches(admitted, legal) && Matches(admitted, plain) && legal != plain
      ensures r.Failure? ==> n < |pin|
    {
      var preferred, alternative := if auto then legal else plain, if auto then plain else legal;
      assert n == 0 ==> admitted == map[];
      if admitted == map[] {
        assert n > 0 ==> 0 in admitted;
        return Success(preferred);
      }
      PrefixMatches(pin, legal, n);
      PrefixMatches(pin, plain, n);
      var preferredMatches, alternativeMatches := Matches(admitted, preferred), Matches(admitted, alternative);
      if preferredMatches && alternativeMatches && preferred != alternative {
        if n == |pin| {
          FullPlanIsUnique(content, pin, legal);
          FullPlanIsUnique(content, pin, plain);
          assert false;
        }
        return Failure(Ambiguous);
      }
      if !preferredMatches {
        if !alternativeMatches { assert false; }
        return Success(alternative);
      }
      return Success(preferred);
    }

    /** One upload attempt under the document lock; `fuel` admissions succeed before it is
        interrupted.  The chunking setting `auto` may differ from attempt to attempt. */
    method Upload(auto: bool, fuel: nat) returns (r: Result<Receipt, Error>)
      requires Valid()
      modifies this`admitted, this`frozen, this`n, this`pin
      ensures Valid()
      ensures old(n) > 0 ==> pin == old(pin)
      ensures old(n) == 0 && n > 0 ==> pin == if auto then legal else plain
      ensures old(n) <= n <= old(n) + fuel
      ensures r.Success? ==>
                && n == |pin| && Concat(pin) == content
                && r.value == Receipt(|pin|, old(n) == |pin|)
      ensures r == Failure(Interrupted) ==> n == old(n) + fuel < |pin|
      ensures r == Failure(Ambiguous) <==>
                0 < old(n) < |old(pin)| && legal != plain
                && Matches(old(admitted), legal) && Matches(old(admitted), plain)
      ensures r != Failure(Unsupported)
      ensures old(n) == |old(pin)| ==> r == Success(Receipt(|pin|, true)) && admitted == old(admitted)
    {
      PrefixCard(pin, n);
      if active {
        return Success(Receipt(|admitted|, true));
      }
      r := FollowPlan(auto, fuel);
    }

    /** One admission; the revision's manifest freezes with the finalizing chunk. */
    method Admit(ordinal: nat, chunk: string, finalize: bool)
      requires Valid() && ordinal == n < |pin| && chunk == pin[n] && finalize == (n == |pin| - 1)
      modifies this`admitted, this`frozen, this`n
      ensures Valid() && n == old(n) + 1 && admitted == old(admitted)[ordinal := chunk]
    {
      assert Prefix(pin, n + 1) == admitted[ordinal := chunk];
      admitted := admitted[ordinal := chunk];
      frozen := finalize;
      n := n + 1;
    }

    method FollowPlan(auto: bool, fuel: nat) returns (r: Result<Receipt, Error>)
      requires Valid() && |admitted| == n
      modifies this`admitted, this`frozen, this`n, this`pin
      ensures Valid()
      ensures old(n) > 0 ==> pin == old(pin)
      ensures old(n) == 0 && n > 0 ==> pin == if auto then legal else plain
      ensures old(n) <= n <= old(n) + fuel
      ensures r.Success? ==> n == |pin| && Concat(pin) == content && r.value == Receipt(|pin|, old(n) == |pin|)
      ensures r == Failure(Interrupted) ==> n == old(n) + fuel < |pin|
      ensures r == Failure(Ambiguous) <==>
                0 < old(n) < |old(pin)| && legal != plain
                && Matches(old(admitted), legal) && Matches(old(admitted), plain)
      ensures r != Failure(Unsupported)
      ensures old(n) == |old(pin)| ==> r == Success(Receipt(|pin|, true)) && admitted == old(admitted)
    {
      var plan := ChoosePlan(auto);
      if plan.Failure? { return Failure(plan.error); }
      var chunks := plan.value;
      if n == 0 { pin := chunks; }
      assert chunks != [];
      var duplicate := |admitted| == |chunks|;
      var left: nat := fuel;
      for ordinal := 0 to |chunks|
        invariant Valid() && pin == chunks
        invariant n == (if ordinal < old(n) then old(n) else ordinal)
        invariant left == fuel - (n - old(n))
      {
        if ordinal !in admitted {
          if left == 0 { return Failure(Interrupted); }
          left := left - 1;
          Admit(ordinal, chunks[ordinal], ordinal == |chunks| - 1);
        }
      }
      return Success(Receipt(|chunks|, duplicate));
    }
  }

  lemma {:induction false} PrefixCard(plan: seq<string>, n: nat)
    requires n <= |plan|
    ensures |Prefix(plan, n)| == n
  {
    if n > 0 {
      PrefixCard(plan, n - 1);
      assert Prefix(plan, n) == Prefix(plan, n - 1)[n - 1 := plan[n - 1]];
    }
  }

  datatype Event = Attempt(auto: bool, fuel: nat) | Worker

  /** Any sequence of interrupted uploads and worker activations: the admitted chunks are
      always a prefix of the one plan that the first admission used, the finalizing chunk
      is the last admitted, and a finished upload spells the content. */
  method Uploads(content: string, legal: seq<string>, plain: seq<string>, events: seq<Event>) returns (rev: Revision)
    requires content != "" && IsPlan(content, legal) && IsPlan(content, plain)
    ensures rev.Valid() && rev.content == content && rev.legal == legal && rev.plain == plain
    ensures rev.admitted == Prefix(rev.pin, rev.n)
    ensures rev.n > 0 ==> exists i :: 0 <= i < |events| && events[i].Attempt?
                                      && rev.pin == (if events[i].auto then legal else plain)
    ensures rev.frozen ==> Concat(rev.pin) == content && |rev.admitted| == |rev.pin|
  {
    rev := new Revision(content, legal, plain);
    for i := 0 to |events|
      invariant fresh(rev) && rev.Valid() && rev.content == content && rev.legal == legal && rev.plain == plain
      invariant rev.n > 0 ==> exists k :: 0 <= k < i && events[k].Attempt?
                                          && rev.pin == (if events[k].auto then legal else plain)
    {
      match events[i]
      case Worker => rev.Activate();
      case Attempt(auto, fuel) => var _ := rev.Upload(auto, fuel);
    }
    PrefixCard(rev.pin, rev.n);
  }

  /** A tokenizer whose bound separates "a" from "b" but not "b" from "c". */
  function Crowded(w: string): nat {
    if w == "ab" || w == "abc" then MAX_TOKENS + 1 else if |w| <= MAX_TOKENS then |w| else MAX_TOKENS
  }

  /** Where the slices of "abc" end under it. */
  lemma CrowdedEnds(p: Separators, start: nat, end: nat)
    requires WellFormed(p) && start < 3 && SliceEnd(Crowded, p, "abc", start, end)
    ensures start == 0 ==> end == 1
    ensures start == 1 ==> end == 3
  {
    var s := "abc";
    assert s[0..1] == "a" && s[0..2] == "ab" && s[0..3] == "abc" && s[1..2] == "b" && s[1..3] == "bc";
    assert Fits(Crowded, s, 1, 3) && !Fits(Crowded, s, 0, 2) && !Fits(Crowded, s, 0, 3);
  }

  lemma SlicedLast(rule: (nat, nat) -> bool, plan: seq<string>)
    requires Sliced(rule, plan) && plan != [] && plan[|plan| - 1] != ""
    ensures var init := plan[..|plan| - 1];
            Sliced(rule, init) && rule(Total(init), Total(plan)) && Total(init) < Total(plan)
  {
  }

  lemma PlainPlan(p: Separators, plan: seq<string>)
    requires WellFormed(p) && IsPlan("abc", plan) && Sliced(EndRule(Crowded, p, "abc"), plan)
    ensures plan == ["a", "bc"]
  {
    var rule := EndRule(Crowded, p, "abc");
    TotalIsLength(plan);
    SlicedLast(rule, plan);
    var init := plan[..|plan| - 1];
    CrowdedEnds(p, Total(init), 3);
    assert Total(init) > 0;
    SlicedLast(rule, init);
    var first := init[..|init| - 1];
    CrowdedEnds(p, Total(first), Total(init));
    assert Total(first) == 0 && Total(init) == 1;
    if first != [] { SlicedLast(rule, first); }
    assert init == [init[0]] && plan == [plan[0], plan[1]];
    assert Concat(first) == "" && Concat(init) == plan[0] && Concat(plan) == plan[0] + plan[1];
    assert |plan[0]| == 1 && plan[0] == "abc"[..1] == "a" && plan[1] == "abc"[1..] == "bc";
  }

  lemma {:induction false} OffsetGrows(plan: seq<string>, k: nat)
    requires k <= |plan| && forall i | 0 <= i < |plan| :: plan[i] != ""
    ensures Offset(plan, k) >= k
  {
    if k > 0 {
      OffsetGrows(plan, k - 1);
      assert plan[..k][..k - 1] == plan[..k - 1];
    }
  }

  lemma LegalPlan(plan: seq<string>)
    requires IsPlan("abc", plan) && IsChunkStart(plan, 1) && IsChunkStart(plan, 2)
    ensures plan == ["a", "b", "c"]
  {
    var j :| 0 <= j < |plan| && Offset(plan, j) == 1;
    var k :| 0 <= k < |plan| && Offset(plan, k) == 2;
    OffsetGrows(plan, j);
    OffsetGrows(plan, k);
    OffsetGrows(plan, |plan|);
    assert plan[..|plan|] == plan && plan[..0] == [];
    assert j == 1 && k == 2 && |plan| == 3;
    assert plan[..2][..1] == plan[..1] && plan[..3][..2] == plan[..2] && plan[..1][..0] == [];
    assert Concat(plan[..1]) == plan[0] && Concat(plan[..2]) == plan[0] + plan[1];
    assert Concat(plan) == plan[0] + plan[1] + plan[2];
    assert plan[0] == "abc"[..1] == "a" && plan[1] == "abc"[1..2] == "b" && plan[2] == "abc"[2..] == "c";
    assert plan == [plan[0], plan[1], plan[2]];
  }

  /** The content "abc" with an article at every character, and a tokenizer that crowds its
      start: the chunkers make two plans with the same first chunk.  Once that chunk is admitted
      the next attempt is refused, although the setting never changed. */
  method AmbiguousUnderItsOwnSetting(p: Separators)
    returns (legal: seq<string>, plain: seq<string>, first: Result<Receipt, Error>, second: Result<Receipt, Error>)
    requires WellFormed(p)
    ensures legal == ["a", "b", "c"] && plain == ["a", "bc"]
    ensures first == Failure(Interrupted) && second == Failure(Ambiguous)
  {
    legal := ChunkLegalDocument(Crowded, p, "abc", [0, 1, 2], false);
    plain := ChunkDocument(Crowded, p, "abc");
    assert IsPlan("abc", legal) && IsPlan("abc", plain) by {
      forall plan | plan in {legal, plain} ensures forall i | 0 <= i < |plan| :: plan[i] != "" {
        forall i | 0 <= i < |plan| ensures plan[i] != "" { assert Bounded(Crowded, plan[i]); }
      }
    }
    assert 1 in [0, 1, 2] && 2 in [0, 1, 2];
    LegalPlan(legal);
    PlainPlan(p, plain);
    first, second := UploadTwice(legal, plain);
  }

  /** One chunk and an interruption, then a retry. */
  method UploadTwice(legal: seq<string>, plain: seq<string>)
    returns (first: Result<Receipt, Error>, second: Result<Receipt, Error>)
    requires legal == ["a", "b", "c"] && plain == ["a", "bc"] && IsPlan("abc", legal) && IsPlan("abc", plain)
    ensures first == Failure(Interrupted) && second == Failure(Ambiguous)
  {
    var rev := new Revision("abc", legal, plain);
    first := rev.Upload(true, 1);
    assert |rev.pin| >= 2;
    assert first.Failure? && !first.error.Ambiguous? && !first.error.Unsupported?;
    assert rev.n == 1 && rev.pin == legal;
    assert rev.admitted == Prefix(legal, 1) == map[0 := "a"];
    second := rev.Upload(true, 2);
  }

  /** The two plans the chunkers really produce meet what uploads rely on: whatever the
      tokenizer, the separators and the interruptions, every chunk admitted in a finished
      upload is within the bounds and together they spell the content. */
  method IngestDocument(
      count: string -> nat, p: Separators, content: string, hs: seq<nat>, caseLaw: bool, events: seq<Event>)
    returns (rev: Revision)
    requires content != "" && Tokenizer(count) && WellFormed(p) && Headings(content, hs)
    ensures rev.Valid() && rev.content == content && rev.admitted == Prefix(rev.pin, rev.n)
    ensures forall i | i in rev.admitted :: Bounded(count, rev.admitted[i])
    ensures rev.frozen ==> Concat(rev.pin) == content && |rev.admitted| == |rev.pin|
  {
    var legal := ChunkLegalDocument(count, p, content, hs, caseLaw);
    var plain := ChunkDocument(count, p, content);
    forall plan | plan in {legal, plain} ensures forall i | 0 <= i < |plan| :: Bounded(count, plan[i]) {
      forall i | 0 <= i < |plan| ensures Bounded(count, plan[i]) { assert plan[i] in plan; }
    }
    rev := Uploads(content, legal, plain, events);
    assert rev.pin in {legal, plain};
  }

  // ---------------------------------------------------------------------------
  // Article identities
  // ---------------------------------------------------------------------------

  /** The last heading at or before an offset, searched from the end; -1 if none. */
  function LastHeading(hs: seq<nat>, offset: nat): (h: int)
    ensures -1 <= h < |hs|
    ensures h >= 0 ==> hs[h] <= offset
    ensures forall i | h < i < |hs| :: hs[i] > offset
  {
    if hs == [] then -1
    else if hs[|hs| - 1] <= offset then |hs| - 1
    else LastHeading(hs[..|hs| - 1], offset)
  }

  /** The router's single pass: `heading` only moves forward.  It gives every chunk the
      article of the last heading at or before its start (special, range and suffixed
      headings have none). */
  method AssignArticles(chunks: seq<string>, hs: seq<nat>, article: seq<Option<string>>)
    returns (identities: seq<Option<string>>)
    requires |article| == |hs| && forall i, j | 0 <= i < j < |hs| :: hs[i] < hs[j]
    ensures |identities| == |chunks|
    ensures forall k | 0 <= k < |chunks| ::
              identities[k] == var h := LastHeading(hs, Offset(chunks, k)); if h < 0 then None else article[h]
  {
    identities := [];
    var heading, offset := -1, 0;
    for ordinal := 0 to |chunks|
      invariant |identities| == ordinal && offset == Offset(chunks, ordinal)
      invariant -1 <= heading < |hs| && (heading >= 0 ==> hs[heading] <= offset)
      invariant forall k | 0 <= k < ordinal ::
                  identities[k] == var h := LastHeading(hs, Offset(chunks, k)); if h < 0 then None else article[h]
    {
      while heading + 1 < |hs| && hs[heading + 1] <= offset
        invariant -1 <= heading < |hs| && (heading >= 0 ==> hs[heading] <= offset)
      {
        heading := heading + 1;
      }
      assert heading == LastHeading(hs, offset);
      identities := identities + [if heading >= 0 then article[heading] else None];
      assert chunks[..ordinal + 1][..ordinal] == chunks[..ordinal];
      offset := offset + |chunks[ordinal]|;
    }
  }

  lemma {:induction false} OffsetMonotone(chunks: seq<string>, k: nat, j: nat)
    requires k <= j <= |chunks|
    ensures Offset(chunks, k) <= Offset(chunks, j)
  {
    if k < j {
      OffsetMonotone(chunks, k, j - 1);
      assert chunks[..j][..j - 1] == chunks[..j - 1];
    }
  }

  /** When every heading starts a chunk, the article a chunk is given is the article of
      each of its characters. */
  lemma ChunkLiesInItsArticle(chunks: seq<string>, hs: seq<nat>, k: nat, x: nat)
    requires forall h | h in hs :: IsChunkStart(chunks, h)
    requires k < |chunks| && Offset(chunks, k) <= x < Offset(chunks, k + 1)
    requires forall i, j | 0 <= i < j < |hs| :: hs[i] < hs[j]
    ensures LastHeading(hs, x) == LastHeading(hs, Offset(chunks, k))
  {
    var here, there := LastHeading(hs, Offset(chunks, k)), LastHeading(hs, x);
    if here < there {
      assert hs[there] in hs;
      var j :| 0 <= j < |chunks| && Offset(chunks, j) == hs[there];
      if j <= k { OffsetMonotone(chunks, j, k); } else { OffsetMonotone(chunks, k + 1, j); }
    }
  }
}
