/** Splitting text into words and words greedily into the entries of a vocabulary
    (mesa_storage/legal_rules.py, first half of parse_turkish_number). */
module NumberText {
  import opened Wrappers

  type Vocabulary = seq<string>

  predicate IsLetter(c: char) {
    'a' <= c <= 'z' || c == 'ç' || c == 'ğ' || c == 'ı' || c == 'ö' || c == 'ş' || c == 'ü'
  }

  predicate IsSpace(c: char) {
    c == ' ' || '\t' <= c <= '\r'
  }

  predicate IsDigit(c: char) {
    '0' <= c <= '9'
  }

  predicate IsDigits(s: string) {
    s != "" && forall c | c in s :: IsDigit(c)
  }

  /** The lower-case form of each character.  Letters of the vocabulary's alphabet, spaces and
      digits are their own; nothing is assumed of any other character. */
  type Lowering = char -> string

  ghost predicate IsLowering(lower: Lowering) {
    forall c | IsLetter(c) || IsSpace(c) || IsDigit(c) :: lower(c) == [c]
  }

  function Lowered(lower: Lowering, s: string): string {
    if s == "" then "" else Lowered(lower, s[..|s| - 1]) + lower(s[|s| - 1])
  }

  predicate Letters(w: string) {
    forall c | c in w :: IsLetter(c)
  }

  /** Every entry is made of letters and is not empty. */
  ghost predicate Speakable(voc: Vocabulary) {
    forall i | 0 <= i < |voc| :: voc[i] != "" && Letters(voc[i])
  }

  /** No entry begins another, not even itself under a second index. */
  ghost predicate PrefixFree(voc: Vocabulary) {
    forall i, j | 0 <= i < |voc| && 0 <= j < |voc| && voc[i] <= voc[j] :: i == j
  }

  /** The first entry, from index `k` on, that the text starts with. */
  function FirstMatch(voc: Vocabulary, w: string, k: nat): (i: Option<nat>)
    requires k <= |voc|
    ensures i.Some? ==> k <= i.value < |voc| && voc[i.value] <= w
    ensures i.None? ==> forall j | k <= j < |voc| :: !(voc[j] <= w)
    decreases |voc| - k
  {
    if k == |voc| then None else if voc[k] <= w then Some(k) else FirstMatch(voc, w, k + 1)
  }

  /** Greedy tokens of a cleaned word. */
  function Tokens(voc: Vocabulary, w: string): Option<seq<nat>>
    requires Speakable(voc)
    decreases |w|
  {
    if w == "" then Some([]) else
      match FirstMatch(voc, w, 0)
      case None => None
      case Some(i) => Before([i], Tokens(voc, w[|voc[i]|..]))
  }

  function Before(a: seq<nat>, b: Option<seq<nat>>): (r: Option<seq<nat>>)
    ensures a == [] ==> r == b
    ensures b == Some([]) ==> r == Some(a)
  {
    match b
    case None => None
    case Some(rest) =>
      assert a == [] ==> a + rest == rest;
      assert rest == [] ==> a + rest == a;
      Some(a + rest)
  }

  function Clean(w: string): string {
    if w == "" then "" else (if IsLetter(w[0]) then [w[0]] else "") + Clean(w[1..])
  }

  function Flush(cur: string): seq<string> {
    if cur == "" then [] else [cur]
  }

  /** The whitespace-separated words of `s`, the first of them continuing `cur`. */
  function Split(s: string, cur: string): seq<string> {
    if s == "" then Flush(cur)
    else if IsSpace(s[0]) then Flush(cur) + Split(s[1..], "")
    else Split(s[1..], cur + [s[0]])
  }

  function AllTokens(voc: Vocabulary, words: seq<string>): Option<seq<nat>>
    requires Speakable(voc)
  {
    if words == [] then Some([]) else
      match Tokens(voc, Clean(words[0]))
      case None => None
      case Some(first) => Before(first, AllTokens(voc, words[1..]))
  }

  function StripLeft(s: string): (r: string)
    ensures forall c | c in s && !IsSpace(c) :: c in r
  {
    if s != "" && IsSpace(s[0]) then StripLeft(s[1..]) else s
  }

  function StripRight(s: string): (r: string)
    ensures forall c | c in s && !IsSpace(c) :: c in r
  {
    if s != "" && IsSpace(s[|s| - 1]) then StripRight(s[..|s| - 1]) else s
  }

  /** One cleaned word, token by token; None when the text stops being in the vocabulary. */
  method TokenizeWord(voc: Vocabulary, w: string) returns (r: Option<seq<nat>>)
    requires Speakable(voc)
    ensures r == Tokens(voc, w)
  {
    var flat: seq<nat> := [];
    var i: nat := 0;
    assert w[0..] == w;
    while i < |w|
      invariant i <= |w|
      invariant Tokens(voc, w) == Before(flat, Tokens(voc, w[i..]))
    {
      var matched: Option<nat> := None;
      for k := 0 to |voc|
        invariant FirstMatch(voc, w[i..], 0) == FirstMatch(voc, w[i..], k)
      {
        if voc[k] <= w[i..] {
          matched := Some(k);
          break;
        }
      }
      if matched.None? { return None; }
      var k := matched.value;
      assert w[i..][|voc[k]|..] == w[i + |voc[k]|..];
      BeforeBefore(flat, [k], Tokens(voc, w[i + |voc[k]|..]));
      flat, i := flat + [k], i + |voc[k]|;
    }
    assert w[i..] == "";
    return Some(flat);
  }

  lemma BeforeBefore(a: seq<nat>, b: seq<nat>, c: Option<seq<nat>>)
    ensures Before(a, Before(b, c)) == Before(a + b, c)
  {
    if c.Some? { assert a + (b + c.value) == a + b + c.value; }
  }

  method TokenizeWords(voc: Vocabulary, words: seq<string>) returns (r: Option<seq<nat>>)
    requires Speakable(voc)
    ensures r == AllTokens(voc, words)
  {
    var flat: seq<nat> := [];
    assert words[0..] == words;
    for k := 0 to |words|
      invariant AllTokens(voc, words) == Before(flat, AllTokens(voc, words[k..]))
    {
      var tokens := TokenizeWord(voc, Clean(words[k]));
      assert words[k..][1..] == words[k + 1..];
      if tokens.None? { return None; }
      BeforeBefore(flat, tokens.value, AllTokens(voc, words[k + 1..]));
      flat := flat + tokens.value;
    }
    assert words[|words|..] == [];
    return Some(flat);
  }

  // ---------------------------------------------------------------------------
  // Greedy tokenizing undoes concatenation
  // ---------------------------------------------------------------------------

  predicate Indices(voc: Vocabulary, ps: seq<nat>) {
    forall k | 0 <= k < |ps| :: ps[k] < |voc|
  }

  function Concat(voc: Vocabulary, ps: seq<nat>): string
    requires Indices(voc, ps)
  {
    if ps == [] then "" else voc[ps[0]] + Concat(voc, ps[1..])
  }

  lemma PrefixesCompare(a: string, b: string, s: string)
    requires a <= s && b <= s
    ensures a <= b || b <= a
  {
    assert a == s[..|a|] && b == s[..|b|];
  }

  /** Two entries that begin the same text are the same entry. */
  lemma SameEntry(voc: Vocabulary, i: nat, j: nat, s: string)
    requires PrefixFree(voc) && i < |voc| && j < |voc| && voc[i] <= s && voc[j] <= s
    ensures i == j
  {
    PrefixesCompare(voc[i], voc[j], s);
  }

  lemma {:induction false} TokensOfConcat(voc: Vocabulary, ps: seq<nat>)
    requires Speakable(voc) && PrefixFree(voc) && Indices(voc, ps)
    ensures Tokens(voc, Concat(voc, ps)) == Some(ps)
  {
    if ps != [] {
      var w, rest := Concat(voc, ps), Concat(voc, ps[1..]);
      TokensOfConcat(voc, ps[1..]);
      var m := FirstMatch(voc, w, 0);
      assert voc[ps[0]] <= w;
      SameEntry(voc, ps[0], m.value, w);
      assert w[|voc[ps[0]]|..] == rest;
      assert ps == [ps[0]] + ps[1..];
    }
  }

  lemma {:induction false} ConcatAppend(voc: Vocabulary, ps: seq<nat>, p: nat)
    requires Indices(voc, ps) && p < |voc|
    ensures Concat(voc, ps + [p]) == Concat(voc, ps) + voc[p]
  {
    if ps == [] {
      assert [p][1..] == [] && [] + [p] == [p];
    } else {
      assert (ps + [p])[1..] == ps[1..] + [p];
      ConcatAppend(voc, ps[1..], p);
    }
  }

  lemma {:induction false} CleanAppend(a: string, b: string)
    ensures Clean(a + b) == Clean(a) + Clean(b)
  {
    if a == "" {
      assert a + b == b;
    } else {
      var rest := a[1..];
      CleanAppend(rest, b);
      assert a + b == [a[0]] + (rest + b);
      CleanFirst(a[0], rest + b);
      CleanFirst(a[0], rest);
      assert a == [a[0]] + rest;
    }
  }

  lemma CleanFirst(c: char, w: string)
    ensures Clean([c] + w) == (if IsLetter(c) then [c] else "") + Clean(w)
  {
    assert ([c] + w)[0] == c && ([c] + w)[1..] == w;
  }

  lemma {:induction false} CleanLetters(w: string)
    requires Letters(w)
    ensures Clean(w) == w
  {
    if w != "" {
      assert w[0] in w;
      CleanLetters(w[1..]);
    }
  }

  predicate Spaceless(x: string) {
    forall c | c in x :: !IsSpace(c)
  }

  /** Only spaces end a word. */
  lemma {:induction false} SplitSpaceless(x: string, t: string, cur: string)
    requires Spaceless(x)
    ensures Split(x + t, cur) == Split(t, cur + x)
  {
    if x == "" {
      assert x + t == t && cur + x == cur;
    } else {
      assert x[0] in x;
      assert (x + t)[1..] == x[1..] + t;
      SplitSpaceless(x[1..], t, cur + [x[0]]);
      assert cur + [x[0]] + x[1..] == cur + x;
    }
  }

  // ---------------------------------------------------------------------------
  // Any way of writing a list of entries
  // ---------------------------------------------------------------------------

  /** Anything but letters: spaces, apostrophes, digits, or nothing at all. */
  predicate Gap(g: string) {
    forall c | c in g :: !IsLetter(c)
  }

  predicate Gaps(gs: seq<string>) {
    forall k | 0 <= k < |gs| :: Gap(gs[k])
  }

  /** The forms `es` with `gs[k]` written before form `k` and the last gap at the end. */
  function Text(es: seq<string>, gs: seq<string>): string
    requires |gs| == |es| + 1
  {
    gs[0] + (if es == [] then "" else es[0] + Text(es[1..], gs[1..]))
  }

  /** `x` reads as `w`: non-letters within a form do not matter. */
  predicate ReadsAs(x: string, w: string) {
    Spaceless(x) && Clean(x) == w
  }

  /** No text that begins with `f` begins with an entry. */
  ghost predicate Stuck(voc: Vocabulary, f: string) {
    f != "" && forall i | 0 <= i < |voc| :: !(voc[i] <= f) && !(f <= voc[i])
  }

  /** The first forms read as the entries `ps`; if there is another, reading gets stuck at it. */
  ghost predicate Written(voc: Vocabulary, ps: seq<nat>, es: seq<string>) {
    && Indices(voc, ps) && |ps| <= |es|
    && (forall k | 0 <= k < |ps| :: ReadsAs(es[k], voc[ps[k]]))
    && (|ps| < |es| ==> Spaceless(es[|ps|]) && Stuck(voc, Clean(es[|ps|])))
  }

  /** What reading those forms after the entries `done` gives. */
  function Reading(done: seq<nat>, ps: seq<nat>, es: seq<string>): Option<seq<nat>> {
    if |ps| == |es| then Some(done + ps) else None
  }

  lemma AfterFlush(voc: Vocabulary, cur: string, done: seq<nat>, words: seq<string>)
    requires Speakable(voc) && PrefixFree(voc) && Indices(voc, done) && Clean(cur) == Concat(voc, done)
    ensures AllTokens(voc, Flush(cur) + words) == Before(done, AllTokens(voc, words))
  {
    if cur == "" {
      assert done == [];
      assert Flush(cur) + words == words;
      if AllTokens(voc, words).Some? { assert [] + AllTokens(voc, words).value == AllTokens(voc, words).value; }
    } else {
      TokensOfConcat(voc, done);
      assert (Flush(cur) + words)[0] == cur && (Flush(cur) + words)[1..] == words;
    }
  }

  /** Reading a text whose current word is `cur`, so far made of the entries `done`. */
  lemma {:induction false} TokensOfText(
      voc: Vocabulary, ps: seq<nat>, es: seq<string>, gs: seq<string>, cur: string, done: seq<nat>)
    requires Speakable(voc) && PrefixFree(voc) && Written(voc, ps, es) && Indices(voc, done)
    requires |gs| == |es| + 1 && Gaps(gs) && Clean(cur) == Concat(voc, done)
    ensures AllTokens(voc, Split(Text(es, gs), cur)) == Reading(done, ps, es)
    decreases |es|, |gs[0]|, 1
  {
    if gs[0] != "" {
      GapCharacter(voc, ps, es, gs, cur, done);
    } else if es == [] {
      AfterFlush(voc, cur, done, []);
      assert Flush(cur) + [] == Flush(cur) && done + [] == done;
    } else if ps == [] {
      StuckHere(voc, es, gs, cur, done);
    } else {
      NextEntry(voc, ps, es, gs, cur, done);
    }
  }

  lemma TextNext(es: seq<string>, gs: seq<string>)
    requires |gs| == |es| + 1 && Gaps(gs) && gs[0] == "" && es != []
    ensures Gaps(gs[1..]) && Text(es, gs) == es[0] + Text(es[1..], gs[1..])
  {
  }

  lemma WrittenNext(voc: Vocabulary, ps: seq<nat>, es: seq<string>)
    requires Written(voc, ps, es) && ps != []
    ensures Written(voc, ps[1..], es[1..]) && ReadsAs(es[0], voc[ps[0]])
  {
    var rest := ps[1..];
    forall k | 0 <= k < |rest| ensures ReadsAs(es[1..][k], voc[rest[k]]) { assert ReadsAs(es[k + 1], voc[ps[k + 1]]); }
  }

  lemma NextEntry(
      voc: Vocabulary, ps: seq<nat>, es: seq<string>, gs: seq<string>, cur: string, done: seq<nat>)
    requires Speakable(voc) && PrefixFree(voc) && Written(voc, ps, es) && Indices(voc, done)
    requires |gs| == |es| + 1 && Gaps(gs) && Clean(cur) == Concat(voc, done)
    requires gs[0] == "" && ps != []
    ensures AllTokens(voc, Split(Text(es, gs), cur)) == Reading(done, ps, es)
    decreases |es|, |gs[0]|, 0
  {
    TextNext(es, gs);
    WrittenNext(voc, ps, es);
    ReadEntry(voc, ps[0], es[0], Text(es[1..], gs[1..]), cur, done);
    TokensOfText(voc, ps[1..], es[1..], gs[1..], cur + es[0], done + [ps[0]]);
    Regroup(done, ps);
  }

  lemma Regroup(a: seq<nat>, b: seq<nat>)
    requires b != []
    ensures a + [b[0]] + b[1..] == a + b
  {
  }

  lemma ReadEntry(voc: Vocabulary, p: nat, x: string, t: string, cur: string, done: seq<nat>)
    requires Speakable(voc) && Indices(voc, done) && p < |voc| && Clean(cur) == Concat(voc, done)
    requires ReadsAs(x, voc[p])
    ensures Split(x + t, cur) == Split(t, cur + x)
    ensures Indices(voc, done + [p]) && Clean(cur + x) == Concat(voc, done + [p])
  {
    SplitSpaceless(x, t, cur);
    CleanAppend(cur, x);
    ConcatAppend(voc, done, p);
  }

  /** The word that continues `cur` begins with it. */
  lemma {:induction false} SplitStarts(t: string, cur: string)
    requires cur != ""
    ensures Split(t, cur) != [] && cur <= Split(t, cur)[0]
  {
    if t != "" && !IsSpace(t[0]) { SplitStarts(t[1..], cur + [t[0]]); }
  }

  lemma {:induction false} TokensOfStuck(voc: Vocabulary, done: seq<nat>, f: string, u: string)
    requires Speakable(voc) && PrefixFree(voc) && Indices(voc, done) && Stuck(voc, f)
    ensures Tokens(voc, Concat(voc, done) + f + u).None?
  {
    var w := Concat(voc, done) + f + u;
    var m := FirstMatch(voc, w, 0);
    if done == [] {
      assert w == f + u && f <= w;
      if m.Some? { PrefixesCompare(f, voc[m.value], w); }
    } else {
      var rest := Concat(voc, done[1..]) + f + u;
      assert w == voc[done[0]] + rest;
      assert voc[done[0]] <= w;
      SameEntry(voc, done[0], m.value, w);
      assert w[|voc[done[0]]|..] == rest;
      TokensOfStuck(voc, done[1..], f, u);
    }
  }

  /** A word that has got stuck stays stuck, whatever follows it. */
  lemma StuckWord(voc: Vocabulary, word: string, t: string, done: seq<nat>, f: string)
    requires Speakable(voc) && PrefixFree(voc) && Indices(voc, done) && Stuck(voc, f)
    requires Clean(word) == Concat(voc, done) + f
    ensures AllTokens(voc, Split(t, word)).None?
  {
    assert word != "" by { assert Clean("") == "" && f != ""; }
    SplitStarts(t, word);
    var first := Split(t, word)[0];
    assert first == word + first[|word|..];
    CleanAppend(word, first[|word|..]);
    TokensOfStuck(voc, done, f, Clean(first[|word|..]));
  }

  lemma StuckHere(voc: Vocabulary, es: seq<string>, gs: seq<string>, cur: string, done: seq<nat>)
    requires Speakable(voc) && PrefixFree(voc) && Written(voc, [], es) && Indices(voc, done)
    requires |gs| == |es| + 1 && Gaps(gs) && Clean(cur) == Concat(voc, done)
    requires gs[0] == "" && es != []
    ensures AllTokens(voc, Split(Text(es, gs), cur)).None?
  {
    TextNext(es, gs);
    SplitSpaceless(es[0], Text(es[1..], gs[1..]), cur);
    CleanAppend(cur, es[0]);
    StuckWord(voc, cur + es[0], Text(es[1..], gs[1..]), done, Clean(es[0]));
  }

  lemma GapCharacter(
      voc: Vocabulary, ps: seq<nat>, es: seq<string>, gs: seq<string>, cur: string, done: seq<nat>)
    requires Speakable(voc) && PrefixFree(voc) && Written(voc, ps, es) && Indices(voc, done)
    requires |gs| == |es| + 1 && Gaps(gs) && Clean(cur) == Concat(voc, done)
    requires gs[0] != ""
    ensures AllTokens(voc, Split(Text(es, gs), cur)) == Reading(done, ps, es)
    decreases |es|, |gs[0]|, 0
  {
    var c, gs' := gs[0][0], gs[0 := gs[0][1..]];
    DropGapCharacter(es, gs);
    var t := Text(es, gs');
    if IsSpace(c) {
      TokensOfText(voc, ps, es, gs', "", []);
      assert [] + ps == ps;
      ReadSpace(voc, c, t, cur, done);
    } else {
      ReadJunk(c, t, cur);
      TokensOfText(voc, ps, es, gs', cur + [c], done);
    }
  }

  lemma ReadSpace(voc: Vocabulary, c: char, t: string, cur: string, done: seq<nat>)
    requires Speakable(voc) && PrefixFree(voc) && Indices(voc, done) && Clean(cur) == Concat(voc, done)
    requires IsSpace(c)
    ensures AllTokens(voc, Split([c] + t, cur)) == Before(done, AllTokens(voc, Split(t, "")))
  {
    var s := [c] + t;
    assert s[0] == c && s[1..] == t;
    AfterFlush(voc, cur, done, Split(t, ""));
  }

  lemma ReadJunk(c: char, t: string, cur: string)
    requires !IsSpace(c) && !IsLetter(c)
    ensures Split([c] + t, cur) == Split(t, cur + [c])
    ensures Clean(cur + [c]) == Clean(cur)
  {
    var s := [c] + t;
    assert s[0] == c && s[1..] == t;
    CleanAppend(cur, [c]);
    assert [c][1..] == "" && Clean([c]) == "";
  }

  lemma DropGapCharacter(es: seq<string>, gs: seq<string>)
    requires |gs| == |es| + 1 && Gaps(gs) && gs[0] != ""
    ensures !IsLetter(gs[0][0]) && Gaps(gs[0 := gs[0][1..]])
    ensures Text(es, gs) == [gs[0][0]] + Text(es, gs[0 := gs[0][1..]])
  {
    var gs' := gs[0 := gs[0][1..]];
    assert Gap(gs[0]) && gs[0][0] in gs[0];
    forall k | 0 <= k < |gs'| ensures Gap(gs'[k]) { assert Gap(gs[k]); }
    assert gs'[1..] == gs[1..];
    assert gs[0] == [gs[0][0]] + gs'[0];
  }

  lemma {:induction false} SplitDropSpace(s: string, c: char, cur: string)
    requires IsSpace(c)
    ensures Split(s + [c], cur) == Split(s, cur)
  {
    if s == "" {
      assert s + [c] == [c] && [c][1..] == "";
      assert Flush(cur) + [] == Flush(cur);
    } else {
      assert (s + [c])[1..] == s[1..] + [c];
      SplitDropSpace(s[1..], c, "");
      SplitDropSpace(s[1..], c, cur + [s[0]]);
    }
  }

  lemma {:induction false} LoweredAppend(lower: Lowering, a: string, b: string)
    ensures Lowered(lower, a + b) == Lowered(lower, a) + Lowered(lower, b)
    decreases |b|
  {
    if b == "" {
      assert a + b == a;
    } else {
      assert (a + b)[..|a + b| - 1] == a + b[..|b| - 1];
      LoweredAppend(lower, a, b[..|b| - 1]);
    }
  }

  lemma {:induction false} LoweredFixed(lower: Lowering, w: string)
    requires IsLowering(lower) && forall c | c in w :: IsLetter(c) || IsSpace(c) || IsDigit(c)
    ensures Lowered(lower, w) == w
  {
    if w != "" {
      var init := w[..|w| - 1];
      assert w == init + [w[|w| - 1]] && w[|w| - 1] in w;
      forall c | c in init ensures c in w { }
      LoweredFixed(lower, init);
    }
  }

  /** Stripping on the left changes neither the words nor the letters of the lower-case form. */
  lemma {:induction false} StripLeftHarmless(lower: Lowering, s: string)
    requires IsLowering(lower)
    ensures Split(Lowered(lower, StripLeft(s)), "") == Split(Lowered(lower, s), "")
    ensures Clean(Lowered(lower, StripLeft(s))) == Clean(Lowered(lower, s))
  {
    if s != "" && IsSpace(s[0]) {
      var rest := s[1..];
      StripLeftHarmless(lower, rest);
      assert s == [s[0]] + rest;
      LoweredAppend(lower, [s[0]], rest);
      LoweredFixed(lower, [s[0]]);
      DropFirstSpace(s[0], Lowered(lower, rest));
    }
  }

  lemma DropFirstSpace(c: char, t: string)
    requires IsSpace(c)
    ensures Split([c] + t, "") == Split(t, "") && Clean([c] + t) == Clean(t)
  {
    var s := [c] + t;
    assert s[0] == c && s[1..] == t;
    assert Flush("") + Split(t, "") == Split(t, "");
    CleanFirst(c, t);
  }

  lemma {:induction false} StripRightHarmless(lower: Lowering, s: string, cur: string)
    requires IsLowering(lower)
    ensures Split(Lowered(lower, StripRight(s)), cur) == Split(Lowered(lower, s), cur)
    ensures Clean(Lowered(lower, StripRight(s))) == Clean(Lowered(lower, s))
  {
    if s != "" && IsSpace(s[|s| - 1]) {
      var init, c := s[..|s| - 1], s[|s| - 1];
      StripRightHarmless(lower, init, cur);
      assert Lowered(lower, s) == Lowered(lower, init) + [c];
      SplitDropSpace(Lowered(lower, init), c, cur);
      CleanAppend(Lowered(lower, init), [c]);
      assert [c][1..] == "" && Clean([c]) == "";
    }
  }

  lemma {:induction false} CleanOfNoLetters(w: string)
    requires forall c | c in w :: !IsLetter(c)
    ensures Clean(w) == ""
  {
    if w != "" {
      assert w[0] in w;
      CleanOfNoLetters(w[1..]);
    }
  }

  /** Some letter survives the cleaning of a text with a form that reads as something. */
  lemma CleanOfText(es: seq<string>, gs: seq<string>)
    requires |gs| == |es| + 1 && es != [] && Clean(es[0]) != ""
    ensures Clean(Text(es, gs)) != ""
  {
    var rest := Text(es[1..], gs[1..]);
    CleanAppend(gs[0], es[0] + rest);
    CleanAppend(es[0], rest);
  }

  /** Whatever non-letters surround, separate and interrupt the forms in the lower-case form of a
      text, splitting and greedy tokenizing give the entries back, or nothing if reading gets
      stuck; and the text is not a numeral. */
  lemma TextRoundTrip(voc: Vocabulary, lower: Lowering, s: string, ps: seq<nat>, es: seq<string>, gs: seq<string>)
    requires Speakable(voc) && PrefixFree(voc) && IsLowering(lower) && Written(voc, ps, es) && es != []
    requires |gs| == |es| + 1 && Gaps(gs) && Lowered(lower, s) == Text(es, gs)
    ensures var t := StripRight(StripLeft(s));
            AllTokens(voc, Split(Lowered(lower, t), "")) == Reading([], ps, es) && !IsDigits(t)
  {
    StripHarmless(lower, s);
    TokensOfText(voc, ps, es, gs, "", []);
    WrittenFirst(voc, ps, es);
    CleanOfText(es, gs);
    NoNumeral(lower, s);
  }

  lemma StripHarmless(lower: Lowering, s: string)
    requires IsLowering(lower)
    ensures Split(Lowered(lower, StripRight(StripLeft(s))), "") == Split(Lowered(lower, s), "")
    ensures Clean(Lowered(lower, StripRight(StripLeft(s)))) == Clean(Lowered(lower, s))
  {
    StripLeftHarmless(lower, s);
    StripRightHarmless(lower, StripLeft(s), "");
  }

  lemma WrittenFirst(voc: Vocabulary, ps: seq<nat>, es: seq<string>)
    requires Speakable(voc) && Written(voc, ps, es) && es != []
    ensures Clean(es[0]) != ""
  {
    if ps != [] { assert ReadsAs(es[0], voc[ps[0]]); }
  }

  /** A text whose lower-case form has a letter is not a numeral. */
  lemma NoNumeral(lower: Lowering, s: string)
    requires IsLowering(lower) && Clean(Lowered(lower, s)) != ""
    ensures !IsDigits(StripRight(StripLeft(s)))
  {
    var t := StripRight(StripLeft(s));
    StripHarmless(lower, s);
    if IsDigits(t) {
      LoweredFixed(lower, t);
      CleanOfNoLetters(t);
    }
  }
}
