/** Lossless document slices under a token bound (mesa_memory/document_chunking.py).  The
    tokenizer and the separator patterns are parameters; nothing is assumed of the
    tokenizer beyond what `Tokenizer` says, in particular no monotonicity. */
module Chunking {

  const MAX_TOKENS: nat := 512
  const MAX_CHARS: nat := 32768

  ghost predicate Tokenizer(count: string -> nat) {
    count("") == 0 && forall c: char :: count([c]) <= MAX_TOKENS
  }

  /** A regex match inside a window. */
  datatype Match = Match(start: nat, end: nat)

  predicate InWindow(m: Match, window: string) {
    m.start < m.end <= |window|
  }

  /** What the separator patterns find in a window, in order. */
  datatype Separators = Separators(
    paragraphs: string -> seq<Match>,
    sentences: string -> seq<Match>,
    isWord: char -> bool,
    isDigit: char -> bool,
    isAlpha: char -> bool,
    isAbbreviation: string -> bool)

  ghost predicate WellFormed(p: Separators) {
    && (forall w, i | 0 <= i < |p.paragraphs(w)| :: InWindow(p.paragraphs(w)[i], w))
    && (forall w, i | 0 <= i < |p.sentences(w)| :: InWindow(p.sentences(w)[i], w))
  }

  // ---------------------------------------------------------------------------
  // Sentence ends
  // ---------------------------------------------------------------------------

  /** Where the run of word characters that ends at `at` begins, not looking before `lo`. */
  function WordStart(p: Separators, s: string, lo: nat, at: nat): (w: nat)
    requires lo <= at <= |s|
    ensures lo <= w <= at
    ensures forall i | w <= i < at :: p.isWord(s[i])
    ensures lo < w ==> !p.isWord(s[w - 1])
    decreases at
  {
    if at == lo || !p.isWord(s[at - 1]) then at else WordStart(p, s, lo, at - 1)
  }

  /** A word also counts as trailing when one line feed follows it. */
  function WordEnd(s: string, at: nat): (e: nat)
    requires at <= |s|
    ensures at - 1 <= e <= at
  {
    if at > 0 && s[at - 1] == '\n' then at - 1 else at
  }

  /** The 64-character look-back, widened only when the word fills it. */
  function TrailingWordStart(p: Separators, s: string, at: nat): (w: nat)
    requires at <= |s|
    ensures w <= WordEnd(s, at)
  {
    var lookback := if at < 64 then 0 else at - 64;
    var w := WordStart(p, s, lookback, WordEnd(s, at));
    if w < WordEnd(s, at) && w == lookback && lookback > 0 then WordStart(p, s, 0, WordEnd(s, at)) else w
  }

  lemma {:induction false} WordStartFrom(p: Separators, s: string, lo: nat, at: nat)
    requires lo <= at <= |s|
    ensures WordStart(p, s, lo, at) == if WordStart(p, s, 0, at) < lo then lo else WordStart(p, s, 0, at)
    decreases at
  {
    if at > lo && p.isWord(s[at - 1]) {
      WordStartFrom(p, s, lo, at - 1);
    }
  }

  /** The shortcut reads the same word as a scan of the whole window. */
  lemma LookbackReadsWholeWord(p: Separators, s: string, at: nat)
    requires at <= |s|
    ensures TrailingWordStart(p, s, at) == WordStart(p, s, 0, WordEnd(s, at))
  {
    WordStartFrom(p, s, if at < 64 then 0 else at - 64, WordEnd(s, at));
  }

  /** _is_sentence_end: a full stop after a number, a single letter or an abbreviation does
      not end a sentence. */
  predicate IsSentenceEnd(p: Separators, s: string, m: Match)
    requires InWindow(m, s)
  {
    var word := s[TrailingWordStart(p, s, m.start)..WordEnd(s, m.start)];
    s[m.start] in "!?" || word == "" || !(
      || (forall i | 0 <= i < |word| :: p.isDigit(word[i]))
      || (|word| == 1 && p.isAlpha(word[0]))
      || p.isAbbreviation(word))
  }

  /** The word before a stop at `at`: the characters from `from` up to `to` are all word
      characters, the one before them is not, and at most a line feed stands between the word
      and the stop. */
  predicate IsTrailingWord(p: Separators, s: string, at: nat, from: nat, to: nat) {
    && from <= to <= at <= |s|
    && (to == at || (to + 1 == at && s[to] == '\n'))
    && (to == at && at > 0 ==> s[at - 1] != '\n')
    && (forall i | from <= i < to :: p.isWord(s[i]))
    && (from > 0 ==> !p.isWord(s[from - 1]))
  }

  /** What is not the end of a sentence: a number, one letter, or an abbreviation. */
  predicate ContinuesSentence(p: Separators, word: string) {
    && word != ""
    && (|| (forall i | 0 <= i < |word| :: p.isDigit(word[i]))
        || (|word| == 1 && p.isAlpha(word[0]))
        || p.isAbbreviation(word))
  }

  lemma TrailingWordIsUnique(p: Separators, s: string, at: nat, a: nat, b: nat, from: nat, to: nat)
    requires IsTrailingWord(p, s, at, a, b) && IsTrailingWord(p, s, at, from, to)
    ensures a == from && b == to
  {
    assert b == to;
  }

  /** A stop ends a sentence exactly when it is an exclamation or question mark, or the whole
      word before it, however long, neither is a number nor one letter nor an abbreviation. */
  lemma SentenceEndReads(p: Separators, s: string, m: Match, from: nat, to: nat)
    requires InWindow(m, s) && IsTrailingWord(p, s, m.start, from, to)
    ensures IsSentenceEnd(p, s, m) <==>
              s[m.start] == '!' || s[m.start] == '?' || !ContinuesSentence(p, s[from..to])
  {
    LookbackReadsWholeWord(p, s, m.start);
    var w, e := TrailingWordStart(p, s, m.start), WordEnd(s, m.start);
    assert IsTrailingWord(p, s, m.start, w, e);
    TrailingWordIsUnique(p, s, m.start, w, e, from, to);
  }

  // ---------------------------------------------------------------------------
  // One slice
  // ---------------------------------------------------------------------------

  function Min(a: nat, b: nat): nat {
    if a < b then a else b
  }

  predicate Fits(count: string -> nat, s: string, start: nat, end: nat)
    requires start <= end <= |s|
  {
    count(s[start..end]) <= MAX_TOKENS
  }

  function Ceiling(s: string, start: nat): nat {
    Min(|s|, start + MAX_CHARS)
  }

  /** A cut that cannot be extended by one character. */
  predicate TightCut(count: string -> nat, s: string, start: nat, cut: nat) {
    && start < cut <= Ceiling(s, start)
    && Fits(count, s, start, cut)
    && (cut == Ceiling(s, start) || !Fits(count, s, start, cut + 1))
  }

  /** Exponential then binary search.  The tokenizer need not be monotone: the search only
      keeps `low` fitting and `high` not fitting. */
  method LargestCut(count: string -> nat, s: string, start: nat) returns (cut: nat)
    requires Tokenizer(count) && start < |s|
    ensures TightCut(count, s, start, cut)
  {
    var ceiling := Ceiling(s, start);
    var low, high := start, Min(start + 512, ceiling);
    assert s[start..start] == "" && s[start..start + 1] == [s[start]];
    while Fits(count, s, start, high)
      invariant start <= low <= high <= ceiling && start < high
      invariant Fits(count, s, start, low)
      invariant low == high ==> high == ceiling
      decreases ceiling - low, ceiling - high
    {
      low := high;
      if high == ceiling { break; }
      high := Min(start + (high - start) * 2, ceiling);
    }
    while low + 1 < high
      invariant start <= low <= high <= ceiling && start < high
      invariant Fits(count, s, start, low)
      invariant low == high == ceiling || !Fits(count, s, start, high)
    {
      var middle := (low + high) / 2;
      if Fits(count, s, start, middle) { low := middle; } else { high := middle; }
    }
    cut := low;
  }

  /** A stop that does end a sentence of the window. */
  function Genuine(p: Separators, window: string): Match -> bool {
    m => InWindow(m, window) && IsSentenceEnd(p, window, m)
  }

  function Sift(ms: seq<Match>, good: Match -> bool): (out: seq<Match>)
    ensures forall m | m in out :: m in ms && good(m)
    ensures forall m | m in ms && good(m) :: m in out
  {
    if ms == [] then []
    else
      var init, last := ms[..|ms| - 1], ms[|ms| - 1];
      Sift(init, good) + if good(last) then [last] else []
  }

  /** Paragraphs first, then stops that are `good`, then any stop, then the end. */
  function ChooseEnd(paragraphs: seq<Match>, stops: seq<Match>, good: Match -> bool, length: nat): nat {
    if paragraphs != [] then paragraphs[|paragraphs| - 1].end
    else if stops == [] then length
    else
      var ends := Sift(stops, good);
      if ends != [] then ends[|ends| - 1].end else stops[|stops| - 1].end
  }

  /** The last natural boundary inside the window, or its end. */
  function NaturalEnd(p: Separators, window: string): (end: nat)
    requires WellFormed(p) && window != ""
    ensures 0 < end <= |window|
  {
    var paragraphs, stops, good := p.paragraphs(window), p.sentences(window), Genuine(p, window);
    assert Sift(stops, good) != [] ==> Sift(stops, good)[|Sift(stops, good)| - 1] in Sift(stops, good);
    ChooseEnd(paragraphs, stops, good, |window|)
  }

  /** The last of the matches that satisfies `good`. */
  ghost predicate IsLastMatch(ms: seq<Match>, good: Match -> bool, end: nat) {
    exists k :: 0 <= k < |ms| && ms[k].end == end && good(ms[k]) && forall j | k < j < |ms| :: !good(ms[j])
  }

  ghost function Any(): Match -> bool {
    _ => true
  }

  /** The end of the last paragraph; without one, of the last good stop; without one, of the
      last stop; without one, of it all. */
  ghost predicate IsChoice(paragraphs: seq<Match>, stops: seq<Match>, good: Match -> bool, length: nat, end: nat) {
    if paragraphs != [] then IsLastMatch(paragraphs, Any(), end)
    else if exists m :: m in stops && good(m) then IsLastMatch(stops, good, end)
    else if stops != [] then IsLastMatch(stops, Any(), end)
    else end == length
  }

  /** Where a window is to be cut: at the end of its last blank line; without one, at its last
      real sentence end; without one, at the last stop that looks like one; without one, at the
      end of the window. */
  ghost predicate IsBoundary(p: Separators, window: string, end: nat) {
    IsChoice(p.paragraphs(window), p.sentences(window), Genuine(p, window), |window|, end)
  }

  lemma LastMatchStays(ms: seq<Match>, last: Match, good: Match -> bool, end: nat)
    requires IsLastMatch(ms, good, end) && !good(last)
    ensures IsLastMatch(ms + [last], good, end)
  {
    var k :| 0 <= k < |ms| && ms[k].end == end && good(ms[k]) && forall j | k < j < |ms| :: !good(ms[j]);
    assert (ms + [last])[k] == ms[k];
  }

  lemma {:induction false} SiftLast(ms: seq<Match>, good: Match -> bool)
    requires Sift(ms, good) != []
    ensures IsLastMatch(ms, good, Sift(ms, good)[|Sift(ms, good)| - 1].end)
  {
    var init, last := ms[..|ms| - 1], ms[|ms| - 1];
    assert ms == init + [last];
    if good(last) {
      assert ms[|ms| - 1].end == last.end;
    } else {
      SiftLast(init, good);
      LastMatchStays(init, last, good, Sift(init, good)[|Sift(init, good)| - 1].end);
    }
  }

  lemma LastIsLast(ms: seq<Match>)
    requires ms != []
    ensures IsLastMatch(ms, Any(), ms[|ms| - 1].end)
  {
  }

  lemma ChoiceIsLast(paragraphs: seq<Match>, stops: seq<Match>, good: Match -> bool, length: nat)
    ensures IsChoice(paragraphs, stops, good, length, ChooseEnd(paragraphs, stops, good, length))
  {
    if paragraphs != [] {
      LastIsLast(paragraphs);
    } else if stops != [] {
      var ends := Sift(stops, good);
      LastIsLast(stops);
      if ends != [] {
        SiftLast(stops, good);
        assert ends[|ends| - 1] in ends;
      }
    }
  }

  lemma NaturalEndIsBoundary(p: Separators, window: string)
    requires WellFormed(p) && window != ""
    ensures IsBoundary(p, window, NaturalEnd(p, window))
  {
    ChoiceIsLast(p.paragraphs(window), p.sentences(window), Genuine(p, window), |window|);
  }

  /** Where the slice that starts at `start` must end: at the boundary of a tight cut, moved back
      no further than the token bound demands. */
  ghost predicate SliceEnd(count: string -> nat, p: Separators, s: string, start: nat, end: nat) {
    WellFormed(p) && exists cut: nat, bound: nat :: EndsWithin(count, p, s, start, cut, bound, end)
  }

  ghost predicate EndsWithin(
      count: string -> nat, p: Separators, s: string, start: nat, cut: nat, bound: nat, end: nat)
    requires WellFormed(p)
  {
    && TightCut(count, s, start, cut)
    && start < end <= bound <= cut
    && (if cut < |s| then IsBoundary(p, s[start..cut], bound - start) else bound == cut)
    && Fits(count, s, start, end)
    && forall e | end < e <= bound :: !Fits(count, s, start, e)
  }

  lemma SingleFits(count: string -> nat, s: string, start: nat)
    requires Tokenizer(count) && start < |s|
    ensures Fits(count, s, start, start + 1)
  {
    assert s[start..start + 1] == [s[start]];
  }

  /** Back off from `bound` to the last end whose slice fits. */
  method LastFitting(count: string -> nat, s: string, start: nat, bound: nat) returns (end: nat)
    requires Tokenizer(count) && start < bound <= |s|
    ensures start < end <= bound && Fits(count, s, start, end)
    ensures forall e | end < e <= bound :: !Fits(count, s, start, e)
  {
    end := bound;
    SingleFits(count, s, start);
    while !Fits(count, s, start, end)
      invariant start < end <= bound
      invariant forall e | end < e <= bound :: !Fits(count, s, start, e)
      decreases end
    {
      end := end - 1;
    }
  }

  method NextEnd(count: string -> nat, p: Separators, s: string, start: nat) returns (end: nat)
    requires Tokenizer(count) && WellFormed(p) && start < |s|
    ensures SliceEnd(count, p, s, start, end)
  {
    var cut := LargestCut(count, s, start);
    end := cut;
    if end < |s| {
      end := start + NaturalEnd(p, s[start..cut]);
      NaturalEndIsBoundary(p, s[start..cut]);
    }
    ghost var bound := end;
    end := LastFitting(count, s, start, end);
    assert EndsWithin(count, p, s, start, cut, bound, end);
  }

  // ---------------------------------------------------------------------------
  // All slices
  // ---------------------------------------------------------------------------

  function Total(chunks: seq<string>): nat {
    if chunks == [] then 0 else Total(chunks[..|chunks| - 1]) + |chunks[|chunks| - 1]|
  }

  function Concat(chunks: seq<string>): string {
    if chunks == [] then "" else Concat(chunks[..|chunks| - 1]) + chunks[|chunks| - 1]
  }

  lemma {:induction false} TotalIsLength(chunks: seq<string>)
    ensures Total(chunks) == |Concat(chunks)|
  {
    if chunks != [] { TotalIsLength(chunks[..|chunks| - 1]); }
  }

  /** The offset at which chunk `k` starts. */
  function Offset(chunks: seq<string>, k: nat): nat
    requires k <= |chunks|
  {
    |Concat(chunks[..k])|
  }

  predicate Bounded(count: string -> nat, chunk: string) {
    0 < |chunk| <= MAX_CHARS && count(chunk) <= MAX_TOKENS
  }

  lemma ConcatSnoc(chunks: seq<string>, c: string)
    ensures Concat(chunks + [c]) == Concat(chunks) + c
  {
    assert (chunks + [c])[..|chunks|] == chunks;
  }

  lemma {:induction false} ConcatAppend(a: seq<string>, b: seq<string>)
    ensures Concat(a + b) == Concat(a) + Concat(b)
  {
    if b == [] {
      assert a + b == a;
    } else {
      ConcatAppend(a, b[..|b| - 1]);
      assert (a + b)[..|a + b| - 1] == a + b[..|b| - 1];
    }
  }

  /** Every slice runs from one offset to another as the rule says. */
  ghost predicate Sliced(rule: (nat, nat) -> bool, chunks: seq<string>) {
    chunks == [] || (Sliced(rule, chunks[..|chunks| - 1]) && rule(Total(chunks[..|chunks| - 1]), Total(chunks)))
  }

  ghost function EndRule(count: string -> nat, p: Separators, content: string): (nat, nat) -> bool {
    (start: nat, end: nat) => SliceEnd(count, p, content, start, end)
  }

  lemma SlicedSnoc(rule: (nat, nat) -> bool, chunks: seq<string>, c: string)
    requires Sliced(rule, chunks) && rule(Total(chunks), Total(chunks) + |c|)
    ensures Sliced(rule, chunks + [c])
  {
    var longer := chunks + [c];
    assert longer[..|longer| - 1] == chunks && longer[|longer| - 1] == c;
    assert Total(longer) == Total(chunks) + |c|;
  }

  /** What has been sliced so far. */
  ghost predicate SlicedUpto(count: string -> nat, p: Separators, content: string, chunks: seq<string>, start: nat) {
    && start <= |content| && Concat(chunks) == content[..start]
    && (forall c | c in chunks :: Bounded(count, c))
    && Sliced(EndRule(count, p, content), chunks)
  }

  lemma SliceStep(count: string -> nat, p: Separators, content: string, chunks: seq<string>, start: nat, end: nat)
    requires SlicedUpto(count, p, content, chunks, start)
    requires start < |content| && SliceEnd(count, p, content, start, end)
    ensures start < end <= |content| && SlicedUpto(count, p, content, chunks + [content[start..end]], end)
  {
    SliceIsBounded(count, p, content, start, end);
    AppendSlice(EndRule(count, p, content), content, chunks, start, end);
  }

  lemma AppendSlice(rule: (nat, nat) -> bool, content: string, chunks: seq<string>, start: nat, end: nat)
    requires start <= end <= |content| && Concat(chunks) == content[..start]
    requires Sliced(rule, chunks) && rule(start, end)
    ensures Concat(chunks + [content[start..end]]) == content[..end]
    ensures Sliced(rule, chunks + [content[start..end]])
  {
    ConcatStep(content, chunks, start, end);
    TotalIsLength(chunks);
    SlicedSnoc(rule, chunks, content[start..end]);
  }

  lemma ConcatStep(content: string, chunks: seq<string>, start: nat, end: nat)
    requires start <= end <= |content| && Concat(chunks) == content[..start]
    ensures Concat(chunks + [content[start..end]]) == content[..end]
  {
    ConcatSnoc(chunks, content[start..end]);
    assert content[..end] == content[..start] + content[start..end];
  }

  lemma SliceIsBounded(count: string -> nat, p: Separators, s: string, start: nat, end: nat)
    requires start < |s| && SliceEnd(count, p, s, start, end)
    ensures start < end <= |s| && Bounded(count, s[start..end])
  {
  }

  /** chunk_document: every character in exactly one slice, each slice within both bounds
      and ending where the rules say, for any tokenizer. */
  method ChunkDocument(count: string -> nat, p: Separators, content: string) returns (chunks: seq<string>)
    requires Tokenizer(count) && WellFormed(p)
    ensures Concat(chunks) == content
    ensures forall c | c in chunks :: Bounded(count, c)
    ensures Sliced(EndRule(count, p, content), chunks)
  {
    chunks := [];
    var start := 0;
    while start < |content|
      invariant SlicedUpto(count, p, content, chunks, start)
    {
      var end := NextEnd(count, p, content, start);
      SliceStep(count, p, content, chunks, start, end);
      chunks := chunks + [content[start..end]];
      start := end;
    }
    assert content[..|content|] == content;
  }

  // ---------------------------------------------------------------------------
  // Legal documents
  // ---------------------------------------------------------------------------

  ghost predicate IsChunkStart(chunks: seq<string>, at: nat) {
    exists k :: 0 <= k < |chunks| && Offset(chunks, k) == at
  }

  /** Heading positions as the pattern reports them. */
  predicate Headings(content: string, hs: seq<nat>) {
    && (forall i | 0 <= i < |hs| :: hs[i] < |content|)
    && (forall i, j | 0 <= i < j < |hs| :: hs[i] < hs[j])
  }

  /** sorted({0, *starts, len(content)}) for a document with headings. */
  function Boundaries(content: string, hs: seq<nat>): (bs: seq<nat>)
    requires Headings(content, hs) && hs != []
    ensures |bs| >= 2 && bs[0] == 0 && bs[|bs| - 1] == |content|
    ensures forall i, j | 0 <= i < j < |bs| :: bs[i] < bs[j]
    ensures forall h | h in hs :: exists i :: 0 <= i < |bs| - 1 && bs[i] == h
  {
    var bs := (if hs[0] == 0 then [] else [0]) + hs + [|content|];
    assert forall i | 0 <= i < |hs| :: bs[if hs[0] == 0 then i else i + 1] == hs[i];
    bs
  }

  lemma StartsSurvive(chunks: seq<string>, more: seq<string>, at: nat)
    requires IsChunkStart(chunks, at)
    ensures IsChunkStart(chunks + more, at)
  {
    var k :| 0 <= k < |chunks| && Offset(chunks, k) == at;
    assert (chunks + more)[..k] == chunks[..k];
    assert Offset(chunks + more, k) == at;
  }

  lemma ConcatSingle(piece: string)
    ensures Concat([piece]) == piece
  {
    assert [piece][..0] == [];
  }

  /** The chunks of one article are appended at its heading. */
  lemma AppendPiece(content: string, from: nat, to: nat, chunks: seq<string>, added: seq<string>)
    requires from < to <= |content|
    requires Concat(chunks) == content[..from] && Concat(added) == content[from..to]
    ensures Concat(chunks + added) == content[..to] && IsChunkStart(chunks + added, from)
  {
    assert added != [];
    ConcatAppend(chunks, added);
    assert content[..to] == content[..from] + content[from..to];
    assert (chunks + added)[..|chunks|] == chunks;
    assert Offset(chunks + added, |chunks|) == from;
  }

  /** chunk_legal_document: lossless and bounded like the plain plan, and when it splits by
      article every heading starts a chunk. */
  method ChunkLegalDocument(count: string -> nat, p: Separators, content: string, hs: seq<nat>, caseLaw: bool)
    returns (chunks: seq<string>)
    requires Tokenizer(count) && WellFormed(p) && Headings(content, hs)
    ensures Concat(chunks) == content
    ensures forall c | c in chunks :: Bounded(count, c)
    ensures |hs| >= 3 && !caseLaw ==> forall h | h in hs :: IsChunkStart(chunks, h)
  {
    if |hs| < 3 || caseLaw {
      chunks := ChunkDocument(count, p, content);
      return;
    }
    var bs := Boundaries(content, hs);
    chunks := [];
    for i := 0 to |bs| - 1
      invariant Concat(chunks) == content[..bs[i]]
      invariant forall c | c in chunks :: Bounded(count, c)
      invariant forall j | 0 <= j < i :: IsChunkStart(chunks, bs[j])
    {
      var piece := content[bs[i]..bs[i + 1]];
      var added := [piece];
      if !(|piece| <= MAX_CHARS && count(piece) <= MAX_TOKENS) {
        added := ChunkDocument(count, p, piece);
      } else {
        ConcatSingle(piece);
      }
      AppendPiece(content, bs[i], bs[i + 1], chunks, added);
      forall j | 0 <= j < i ensures IsChunkStart(chunks + added, bs[j]) { StartsSurvive(chunks, added, bs[j]); }
      chunks := chunks + added;
    }
    assert content[..|content|] == content;
    forall h | h in hs ensures IsChunkStart(chunks, h) {
      var i :| 0 <= i < |bs| - 1 && bs[i] == h;
    }
  }
}
