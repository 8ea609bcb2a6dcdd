/** Turkish number words: parse_turkish_number (mesa_storage/legal_rules.py). */
module TurkishNumbers {
  import opened Wrappers
  import opened NumberText

  // ---------------------------------------------------------------------------
  // The vocabulary
  // ---------------------------------------------------------------------------

  const COUNT: nat := 30

  function Spelling(i: nat): string {
    match i
    case 0 => "milyar" case 1 => "milyon" case 2 => "bin" case 3 => "yüz" case 4 => "yuz"
    case 5 => "doksan" case 6 => "seksen" case 7 => "yetmiş" case 8 => "yetmis" case 9 => "altmış"
    case 10 => "altmis" case 11 => "elli" case 12 => "kırk" case 13 => "kirk" case 14 => "otuz"
    case 15 => "yirmi" case 16 => "on" case 17 => "dokuz" case 18 => "sekiz" case 19 => "yedi"
    case 20 => "altı" case 21 => "alti" case 22 => "beş" case 23 => "bes" case 24 => "dört"
    case 25 => "dort" case 26 => "üç" case 27 => "uc" case 28 => "iki" case _ => "bir"
  }

  function Value(i: nat): nat {
    match i
    case 0 => 1_000_000_000 case 1 => 1_000_000 case 2 => 1000 case 3 => 100 case 4 => 100
    case 5 => 90 case 6 => 80 case 7 => 70 case 8 => 70 case 9 => 60
    case 10 => 60 case 11 => 50 case 12 => 40 case 13 => 40 case 14 => 30
    case 15 => 20 case 16 => 10 case 17 => 9 case 18 => 8 case 19 => 7
    case 20 => 6 case 21 => 6 case 22 => 5 case 23 => 5 case 24 => 4
    case 25 => 4 case 26 => 3 case 27 => 3 case 28 => 2 case _ => 1
  }

  /** Which word of the vocabulary a text starting with one starts with, read off its first
      letters by a decision tree. */
  function Leading(s: string): nat {
    var c := (k: nat) => if k < |s| then s[k] else ' ';
    if c(0) == 'm' then (if c(4) == 'a' then 0 else 1)
    else if c(0) == 'b' then
      (if c(1) == 'i' then (if c(2) == 'n' then 2 else 29) else if c(2) == 's' then 23 else 22)
    else if c(0) == 'y' then
      (if c(1) == 'ü' then 3 else if c(1) == 'u' then 4 else if c(1) == 'i' then 15
       else if c(2) == 'd' then 19 else if c(5) == 's' then 8 else 7)
    else if c(0) == 'd' then
      (if c(1) == 'ö' then 24 else if c(2) == 'r' then 25 else if c(3) == 's' then 5 else 17)
    else if c(0) == 's' then (if c(3) == 's' then 6 else 18)
    else if c(0) == 'a' then
      (if c(3) == 'ı' then 20 else if c(3) == 'i' then 21 else if c(4) == 'ı' then 9 else 10)
    else if c(0) == 'e' then 11
    else if c(0) == 'k' then (if c(1) == 'ı' then 12 else 13)
    else if c(0) == 'o' then (if c(1) == 't' then 14 else 16)
    else if c(0) == 'ü' then 26
    else if c(0) == 'u' then 27
    else 28
  }

  lemma LeadingOf(i: nat, r: string)
    requires i < COUNT
    ensures Leading(Spelling(i) + r) == i
  {
    if i < 8 { LeadingOf0(i, r); }
    else if i < 16 { LeadingOf1(i, r); }
    else if i < 24 { LeadingOf2(i, r); }
    else { LeadingOf3(i, r); }
  }

  lemma LeadingOf0(i: nat, r: string)
    requires i < 8
    ensures Leading(Spelling(i) + r) == i
  {
  }

  lemma LeadingOf1(i: nat, r: string)
    requires 8 <= i < 16
    ensures Leading(Spelling(i) + r) == i
  {
  }

  lemma LeadingOf2(i: nat, r: string)
    requires 16 <= i < 24
    ensures Leading(Spelling(i) + r) == i
  {
  }

  lemma LeadingOf3(i: nat, r: string)
    requires 24 <= i < 30
    ensures Leading(Spelling(i) + r) == i
  {
  }

  /** The table's spellings. */
  function Words(): (voc: Vocabulary)
    ensures |voc| == COUNT && forall i | 0 <= i < COUNT :: voc[i] == Spelling(i)
  {
    seq(COUNT, i requires 0 <= i < COUNT => Spelling(i))
  }

  lemma WordsSpeakable()
    ensures Speakable(Words())
  {
    forall i | 0 <= i < COUNT ensures Words()[i] != "" && Letters(Words()[i]) { SpellingIsLetters(i); }
  }

  lemma SpellingIsLetters(i: nat)
    ensures Spelling(i) != "" && Letters(Spelling(i))
  {
  }

  lemma LeadingOfWord(voc: Vocabulary, i: nat, s: string)
    requires voc == Words() && i < |voc| && voc[i] <= s
    ensures Leading(s) == i
  {
    LeadingOf(i, s[|voc[i]|..]);
    assert s == voc[i] + s[|voc[i]|..];
  }

  /** No word of the table begins another. */
  lemma WordsPrefixFree()
    ensures PrefixFree(Words())
  {
    var voc := Words();
    forall i, j | 0 <= i < |voc| && 0 <= j < |voc| && voc[i] <= voc[j] ensures i == j {
      LeadingOfWord(voc, i, voc[j]);
      LeadingOfWord(voc, j, voc[j]);
    }
  }

  // ---------------------------------------------------------------------------
  // From tokens to the number
  // ---------------------------------------------------------------------------

  datatype Sums = Sums(total: nat, scale: nat, hundreds: nat)

  /** The product with one of the three scales. */
  function Times(num: nat, scale: nat): nat {
    if scale == 1_000_000_000 then num * 1_000_000_000 else if scale == 1_000_000 then num * 1_000_000 else num * 1000
  }

  predicate IsScale(v: nat) {
    v == 1_000_000_000 || v == 1_000_000 || v == 1000
  }

  function Add(a: Sums, v: nat): Sums {
    if IsScale(v) then
      var num := a.scale + a.hundreds;
      Sums(a.total + Times(if num == 0 then 1 else num, v), 0, 0)
    else if v == 100 then
      Sums(a.total, a.scale + (if a.hundreds > 0 then a.hundreds else 1) * 100, 0)
    else
      Sums(a.total, a.scale, a.hundreds + v)
  }

  function AddAll(a: Sums, vs: seq<nat>): Sums {
    if vs == [] then a else Add(AddAll(a, vs[..|vs| - 1]), vs[|vs| - 1])
  }

  function Sum(a: Sums): nat {
    a.total + a.scale + a.hundreds
  }

  function Values(tokens: seq<nat>): (vs: seq<nat>)
    ensures |vs| == |tokens| && forall k | 0 <= k < |tokens| :: vs[k] == Value(tokens[k])
  {
    seq(|tokens|, k requires 0 <= k < |tokens| => Value(tokens[k]))
  }

  function Decimal(s: string): nat
    requires forall c | c in s :: IsDigit(c)
  {
    if s == "" then 0 else
      var init := s[..|s| - 1];
      assert s == init + [s[|s| - 1]] && s[|s| - 1] in s && IsDigit(s[|s| - 1]);
      assert forall c | c in init :: c in s;
      Decimal(init) * 10 + (s[|s| - 1] as int - '0' as int)
  }

  function Parse(lower: Lowering, s: string): Option<nat> {
    WordsSpeakable();
    var t := StripRight(StripLeft(s));
    if IsDigits(t) then Some(Decimal(t)) else
      match AllTokens(Words(), Split(Lowered(lower, t), ""))
      case None => None
      case Some(tokens) => if tokens == [] then None else Some(Sum(AddAll(Sums(0, 0, 0), Values(tokens))))
  }

  lemma AddAllNext(a: Sums, vs: seq<nat>, k: nat)
    requires k < |vs|
    ensures AddAll(a, vs[..k + 1]) == Add(AddAll(a, vs[..k]), vs[k])
  {
    assert vs[..k + 1][..k] == vs[..k];
  }

  method SumValues(vs: seq<nat>) returns (r: nat)
    ensures r == Sum(AddAll(Sums(0, 0, 0), vs))
  {
    var sums := Sums(0, 0, 0);
    for k := 0 to |vs|
      invariant sums == AddAll(Sums(0, 0, 0), vs[..k])
    {
      AddAllNext(Sums(0, 0, 0), vs, k);
      sums := Add(sums, vs[k]);
    }
    assert vs[..|vs|] == vs;
    return Sum(sums);
  }

  method ParseTurkishNumber(lower: Lowering, s: string) returns (r: Option<nat>)
    ensures r == Parse(lower, s)
  {
    WordsSpeakable();
    var t := StripRight(StripLeft(s));
    if IsDigits(t) { return Some(Decimal(t)); }
    var flat := TokenizeWords(Words(), Split(Lowered(lower, t), ""));
    if flat.None? || flat.value == [] { return None; }
    var n := SumValues(Values(flat.value));
    return Some(n);
  }

  // ---------------------------------------------------------------------------
  // Numerals
  // ---------------------------------------------------------------------------

  /** The decimal digits of `n`, the highest first. */
  function Numeral(n: nat): string {
    (if n < 10 then "" else Numeral(n / 10)) + ['0' + (n % 10) as char]
  }

  predicate Zeros(s: string) {
    forall c | c in s :: c == '0'
  }

  predicate Blank(s: string) {
    forall c | c in s :: c as int == 32 || 9 <= c as int <= 13
  }

  lemma {:induction false} DecimalOfZeros(s: string)
    requires Zeros(s)
    ensures Decimal(s) == 0
  {
    if s != "" {
      var init := s[..|s| - 1];
      assert s[|s| - 1] in s && forall c | c in init :: c in s;
      DecimalOfZeros(init);
    }
  }

  lemma {:induction false} DecimalOfNumeral(zeros: string, n: nat)
    requires Zeros(zeros)
    ensures forall c | c in zeros + Numeral(n) :: IsDigit(c)
    ensures Decimal(zeros + Numeral(n)) == n
  {
    var s := zeros + Numeral(n);
    if n < 10 {
      assert s[..|s| - 1] == zeros;
      DecimalOfZeros(zeros);
    } else {
      assert s[..|s| - 1] == zeros + Numeral(n / 10);
      DecimalOfNumeral(zeros, n / 10);
    }
    assert s == s[..|s| - 1] + [s[|s| - 1]] && s[|s| - 1] == '0' + (n % 10) as char;
  }

  lemma {:induction false} StripLeftBlank(b: string, t: string)
    requires Blank(b) && t != "" && IsDigit(t[0])
    ensures StripLeft(b + t) == t
  {
    if b == "" {
      assert b + t == t;
    } else {
      assert forall c | c in b[1..] :: c in b;
      assert b[0] in b && (b + t)[1..] == b[1..] + t;
      StripLeftBlank(b[1..], t);
    }
  }

  lemma {:induction false} StripRightBlank(t: string, b: string)
    requires Blank(b) && t != "" && IsDigit(t[|t| - 1])
    ensures StripRight(t + b) == t
  {
    if b == "" {
      assert t + b == t;
    } else {
      var n := |b| - 1;
      assert forall c | c in b[..n] :: c in b;
      assert b[n] in b && (t + b)[..|t + b| - 1] == t + b[..n];
      StripRightBlank(t, b[..n]);
    }
  }

  /** A numeral is read as the number it shows, whatever zeros lead it and whatever blanks
      surround it. */
  lemma NumeralRoundTrip(n: nat, lower: Lowering, zeros: string, before: string, after: string)
    requires Zeros(zeros) && Blank(before) && Blank(after)
    ensures Parse(lower, before + zeros + Numeral(n) + after) == Some(n)
  {
    var t := zeros + Numeral(n);
    DecimalOfNumeral(zeros, n);
    assert t[0] in t && t[|t| - 1] in t;
    assert before + zeros + Numeral(n) + after == before + (t + after);
    assert (t + after)[0] == t[0];
    StripLeftBlank(before, t + after);
    StripRightBlank(t, after);
  }

  lemma {:induction false} NoTokens(x: string, cur: string)
    requires forall c | c in cur + x :: !IsLetter(c)
    ensures Speakable(Words()) && AllTokens(Words(), Split(x, cur)) == Some([])
    decreases |x|
  {
    WordsSpeakable();
    NoTokensFlushed(cur);
    if x != "" {
      assert cur + x == cur + [x[0]] + x[1..];
      if IsSpace(x[0]) {
        assert forall c | c in "" + x[1..] :: c in cur + x;
        NoTokens(x[1..], "");
        FlushedFirst(cur, Split(x[1..], ""));
      } else {
        NoTokens(x[1..], cur + [x[0]]);
      }
    }
  }

  lemma NoTokensFlushed(cur: string)
    requires forall c | c in cur :: !IsLetter(c)
    ensures Speakable(Words()) && AllTokens(Words(), Flush(cur)) == Some([])
    ensures Tokens(Words(), Clean(cur)) == Some([])
  {
    WordsSpeakable();
    CleanOfNoLetters(cur);
    assert Flush(cur) != [] ==> Flush(cur)[1..] == [];
  }

  lemma FlushedFirst(cur: string, rest: seq<string>)
    requires forall c | c in cur :: !IsLetter(c)
    requires Speakable(Words()) && AllTokens(Words(), rest) == Some([])
    ensures AllTokens(Words(), Flush(cur) + rest) == Some([])
  {
    NoTokensFlushed(cur);
    if cur == "" {
      assert Flush(cur) + rest == rest;
    } else {
      assert (Flush(cur) + rest)[0] == cur && (Flush(cur) + rest)[1..] == rest;
    }
  }

  /** A text that is no numeral and whose lower-case form has no letters says no number, not
      even zero. */
  lemma NothingSpoken(lower: Lowering, s: string)
    requires !IsDigits(StripRight(StripLeft(s)))
    requires forall c | c in Lowered(lower, StripRight(StripLeft(s))) :: !IsLetter(c)
    ensures Parse(lower, s) == None
  {
    var x := Lowered(lower, StripRight(StripLeft(s)));
    assert "" + x == x;
    NoTokens(x, "");
  }

  // ---------------------------------------------------------------------------
  // The round trip
  // ---------------------------------------------------------------------------

  function Optionally(say: bool, v: nat): seq<nat> {
    if say then [v] else []
  }

  function Digits(h: nat, t: nat, u: nat): seq<nat> {
    Optionally(h > 1, h) + Optionally(h > 0, 100) + Optionally(t > 0, t * 10) + Optionally(u > 0, u)
  }

  /** The number words of 1..999: "iki yüz kırk beş", with a bare "yüz" for one hundred. */
  function Group(g: nat): seq<nat> {
    Digits(g / 100, g / 10 % 10, g % 10)
  }

  function Scaled(g: nat, scale: nat): seq<nat> {
    if g == 0 then [] else (if g == 1 && scale == 1000 then [] else Group(g)) + [scale]
  }

  function Scale(level: nat): nat {
    if level == 1 then 1000 else if level == 2 then 1_000_000 else 1_000_000_000
  }

  /** The words of the groups of `n` from the thousands (level 1) up. */
  function Spoken(n: nat, level: nat): seq<nat>
    decreases n
  {
    if n == 0 then [] else Spoken(n / 1000, level + 1) + Scaled(n % 1000, Scale(level))
  }

  /** The number words of `n`, with a bare "bin" for one thousand. */
  function NumberWords(n: nat): seq<nat> {
    Spoken(n / 1000, 1) + Group(n % 1000)
  }

  lemma {:induction false} AddAllConcat(a: Sums, xs: seq<nat>, ys: seq<nat>)
    ensures AddAll(a, xs + ys) == AddAll(AddAll(a, xs), ys)
    decreases |ys|
  {
    if ys == [] {
      assert xs + ys == xs;
    } else {
      assert (xs + ys)[..|xs + ys| - 1] == xs + ys[..|ys| - 1];
      AddAllConcat(a, xs, ys[..|ys| - 1]);
    }
  }

  lemma AddOptionally(a: Sums, say: bool, v: nat)
    ensures AddAll(a, Optionally(say, v)) == if say then Add(a, v) else a
  {
    assert [v][..0] == [];
  }

  lemma AddFour(a: Sums, b: Sums, c: Sums, d: Sums, e: Sums, w: seq<nat>, x: seq<nat>, y: seq<nat>, z: seq<nat>)
    requires AddAll(a, w) == b && AddAll(b, x) == c && AddAll(c, y) == d && AddAll(d, z) == e
    ensures AddAll(a, w + x + y + z) == e
  {
    AddAllConcat(a, w + x + y, z);
    AddAllConcat(a, w + x, y);
    AddAllConcat(a, w, x);
  }

  lemma AddDigits(total: nat, h: nat, t: nat, u: nat)
    requires h < 10 && t < 10 && u < 10
    ensures AddAll(Sums(total, 0, 0), Digits(h, t, u)) == Sums(total, h * 100, t * 10 + u)
  {
    var a, b, c := Sums(total, 0, 0), Sums(total, 0, if h > 1 then h else 0), Sums(total, h * 100, 0);
    var d, e := Sums(total, h * 100, t * 10), Sums(total, h * 100, t * 10 + u);
    AddOptionally(a, h > 1, h);
    AddOptionally(b, h > 0, 100);
    AddOptionally(c, t > 0, t * 10);
    AddOptionally(d, u > 0, u);
    AddFour(a, b, c, d, e,
            Optionally(h > 1, h), Optionally(h > 0, 100), Optionally(t > 0, t * 10), Optionally(u > 0, u));
  }

  lemma DigitsOf(g: nat)
    requires g < 1000
    ensures g / 100 < 10 && g / 10 % 10 < 10 && g % 10 < 10
    ensures g / 100 * 100 + g / 10 % 10 * 10 + g % 10 == g
  {
  }

  /** Within a group the two small accumulators hold the value read so far. */
  lemma AddGroup(total: nat, g: nat)
    requires g < 1000
    ensures var a := AddAll(Sums(total, 0, 0), Group(g)); a.total == total && a.scale + a.hundreds == g
  {
    DigitsOf(g);
    AddDigits(total, g / 100, g / 10 % 10, g % 10);
  }

  lemma AddScaled(total: nat, g: nat, scale: nat)
    requires g < 1000 && IsScale(scale)
    ensures AddAll(Sums(total, 0, 0), Scaled(g, scale)) == Sums(total + Times(g, scale), 0, 0)
  {
    var a := Sums(total, 0, 0);
    if g > 0 {
      var said := if g == 1 && scale == 1000 then [] else Group(g);
      AddGroup(total, g);
      AddAllConcat(a, said, [scale]);
      AddOptionally(AddAll(a, said), true, scale);
    }
  }

  /** What a number of groups from `level` up may be. */
  predicate Small(n: nat, level: nat) {
    if level == 3 then n < 1000 else if level == 2 then n < 1_000_000 else level == 1 && n < 1_000_000_000
  }

  lemma TimesSplits(n: nat, level: nat)
    requires 1 <= level < 3
    ensures Times(n / 1000, Scale(level + 1)) + Times(n % 1000, Scale(level)) == Times(n, Scale(level))
  {
  }

  lemma {:induction false} SpokenAddsUp(n: nat, level: nat)
    requires 1 <= level <= 3 && Small(n, level)
    ensures AddAll(Sums(0, 0, 0), Spoken(n, level)) == Sums(Times(n, Scale(level)), 0, 0)
    decreases n
  {
    if n > 0 {
      var high, low := n / 1000, n % 1000;
      AddAllConcat(Sums(0, 0, 0), Spoken(high, level + 1), Scaled(low, Scale(level)));
      if level < 3 {
        SpokenAddsUp(high, level + 1);
        AddScaled(Times(high, Scale(level + 1)), low, Scale(level));
        TimesSplits(n, level);
      } else {
        assert high == 0 && low == n;
        AddScaled(0, low, Scale(level));
      }
    }
  }

  lemma AddLastGroup(total: nat, xs: seq<nat>, r: nat)
    requires r < 1000 && AddAll(Sums(0, 0, 0), xs) == Sums(total, 0, 0)
    ensures Sum(AddAll(Sums(0, 0, 0), xs + Group(r))) == total + r
  {
    AddGroup(total, r);
    AddAllConcat(Sums(0, 0, 0), xs, Group(r));
  }

  lemma NumberWordsAddUp(n: nat)
    requires n < 1_000_000_000_000
    ensures Sum(AddAll(Sums(0, 0, 0), NumberWords(n))) == n
  {
    SpokenAddsUp(n / 1000, 1);
    AddLastGroup(n / 1000 * 1000, Spoken(n / 1000, 1), n % 1000);
  }

  lemma NumberWordsNotEmpty(n: nat)
    requires 1 <= n < 1_000_000_000_000
    ensures NumberWords(n) != []
  {
    NumberWordsAddUp(n);
    assert AddAll(Sums(0, 0, 0), []) == Sums(0, 0, 0);
  }

  // ---------------------------------------------------------------------------
  // Which spellings and casings are read back
  // ---------------------------------------------------------------------------

  const SIXTY: nat := 9

  /** `u` is `w`, but for dotless letters that may have got a dot. */
  predicate Dotting(u: string, w: string) {
    |u| == |w| && forall j | 0 <= j < |w| :: u[j] == w[j] || (w[j] == 'ı' && u[j] == 'i')
  }

  /** The lower-case form `x` writes word `i` of the table, in whatever case and with whatever
      non-letters in between. */
  predicate Writes(x: string, i: nat) {
    Spaceless(x) && Dotting(Clean(x), Spelling(i))
  }

  ghost predicate WritesAll(es: seq<string>, ps: seq<nat>) {
    |es| == |ps| && forall k | 0 <= k < |ps| :: Writes(es[k], ps[k])
  }

  /** The form writes "altmış" with a dot. */
  predicate LosesSixty(x: string, i: nat) {
    i == SIXTY && Clean(x) != Spelling(SIXTY)
  }

  ghost predicate SomeLosesSixty(es: seq<string>, ps: seq<nat>) {
    exists k :: 0 <= k < |es| && k < |ps| && LosesSixty(es[k], ps[k])
  }

  /** The word of the table that a dotted form spells: "kirk" and "alti" are in it. */
  function Undotted(u: string, i: nat): nat {
    if u == Spelling(i) then i else if i == 12 then 13 else 21
  }

  lemma DotlessWords(i: nat)
    requires i < COUNT && i !in {SIXTY, 12, 20}
    ensures forall j | 0 <= j < |Spelling(i)| :: Spelling(i)[j] != 'ı'
  {
    if i < 8 { Dotless0(i); } else if i < 16 { Dotless1(i); } else if i < 24 { Dotless2(i); } else { Dotless3(i); }
  }

  lemma Dotless0(i: nat)
    requires i < 8
    ensures forall j | 0 <= j < |Spelling(i)| :: Spelling(i)[j] != 'ı'
  {
  }

  lemma Dotless1(i: nat)
    requires 8 <= i < 16 && i !in {SIXTY, 12}
    ensures forall j | 0 <= j < |Spelling(i)| :: Spelling(i)[j] != 'ı'
  {
  }

  lemma Dotless2(i: nat)
    requires 16 <= i < 24 && i != 20
    ensures forall j | 0 <= j < |Spelling(i)| :: Spelling(i)[j] != 'ı'
  {
  }

  lemma Dotless3(i: nat)
    requires 24 <= i < 30
    ensures forall j | 0 <= j < |Spelling(i)| :: Spelling(i)[j] != 'ı'
  {
  }

  /** A dotted form is a word of the same value, unless it is a dotted "altmış". */
  lemma DottingMeans(u: string, i: nat)
    requires i < COUNT && Dotting(u, Spelling(i)) && !(i == SIXTY && u != Spelling(SIXTY))
    ensures Undotted(u, i) < COUNT && u == Spelling(Undotted(u, i)) && Value(Undotted(u, i)) == Value(i)
  {
    if i == 12 || i == 20 {
    } else if i != SIXTY {
      DotlessWords(i);
    }
  }

  lemma DottedSixty(u: string)
    requires Dotting(u, Spelling(SIXTY)) && u != Spelling(SIXTY)
    ensures u == "altmiş"
  {
  }

  /** ... and no text that begins with it begins with a word of the table. */
  lemma SixtyIsStuck()
    ensures Stuck(Words(), "altmiş")
  {
    var f := "altmiş";
    assert Leading(f) == 10 && |Spelling(10)| == |f| == 6 && Spelling(10)[5] != f[5];
    forall i | 0 <= i < COUNT ensures !(Words()[i] <= f) && !(f <= Words()[i]) { NotSixty(f, i); }
  }

  lemma NotSixty(f: string, i: nat)
    requires f == "altmiş" && Leading(f) == 10 && |Spelling(10)| == |f| && Spelling(10)[5] != f[5] && i < COUNT
    ensures !(Words()[i] <= f) && !(f <= Words()[i])
  {
    if Words()[i] <= f { LeadingOfWord(Words(), i, f); }
    if f <= Words()[i] {
      LeadingExtends(f, Words()[i]);
      LeadingOfWord(Words(), i, Words()[i]);
    }
  }

  lemma LeadingExtends(f: string, w: string)
    requires f == "altmiş" && f <= w
    ensures Leading(w) == 10
  {
    assert w[0] == f[0] && w[3] == f[3] && w[4] == f[4];
  }

  /** The form of word `i` reads as word `q`, of the same value. */
  predicate ReadsFor(x: string, i: nat, q: nat) {
    q < COUNT && ReadsAs(x, Words()[q]) && Value(q) == Value(i) && !LosesSixty(x, i)
  }

  lemma FormReads(x: string, i: nat)
    requires i < COUNT && Writes(x, i) && !LosesSixty(x, i)
    ensures ReadsFor(x, i, Undotted(Clean(x), i))
  {
    DottingMeans(Clean(x), i);
  }

  lemma FormSticks(x: string, i: nat)
    requires Writes(x, i) && LosesSixty(x, i)
    ensures Spaceless(x) && Stuck(Words(), Clean(x))
  {
    DottedSixty(Clean(x));
    SixtyIsStuck();
  }

  /** The first of `n` positions that is not `good`, or `n`. */
  lemma FirstBad(n: nat, good: nat -> bool) returns (m: nat)
    ensures m <= n && (forall k | 0 <= k < m :: good(k)) && (m < n ==> !good(m))
  {
    m := 0;
    while m < n && good(m)
      invariant m <= n && forall k | 0 <= k < m :: good(k)
    {
      m := m + 1;
    }
  }

  lemma ReadForms(es: seq<string>, ps: seq<nat>) returns (qs: seq<nat>)
    requires Indices(Words(), ps) && WritesAll(es, ps)
    ensures |qs| <= |es| && forall k | 0 <= k < |qs| :: ReadsFor(es[k], ps[k], qs[k])
    ensures |qs| < |es| ==> LosesSixty(es[|qs|], ps[|qs|])
  {
    var keeps := (k: nat) => k < |es| == |ps| && !LosesSixty(es[k], ps[k]);
    var m := FirstBad(|es|, keeps);
    qs := seq(m, k requires 0 <= k < m <= |es| == |ps| => Undotted(Clean(es[k]), ps[k]));
    forall k | 0 <= k < m ensures ReadsFor(es[k], ps[k], qs[k]) {
      assert keeps(k) && Writes(es[k], ps[k]);
      FormReads(es[k], ps[k]);
    }
  }

  lemma ReadIsWritten(voc: Vocabulary, es: seq<string>, ps: seq<nat>, qs: seq<nat>)
    requires voc == Words() && |qs| <= |es| == |ps| && forall k | 0 <= k < |qs| :: ReadsFor(es[k], ps[k], qs[k])
    requires |qs| < |es| ==> Spaceless(es[|qs|]) && Stuck(voc, Clean(es[|qs|]))
    ensures Written(voc, qs, es)
  {
    forall k | 0 <= k < |qs| ensures qs[k] < |voc| && ReadsAs(es[k], voc[qs[k]]) {
      assert ReadsFor(es[k], ps[k], qs[k]);
    }
  }

  /** The tokens of the forms before the first "altmış" with a dot. */
  lemma FormsAreWritten(es: seq<string>, ps: seq<nat>) returns (qs: seq<nat>)
    requires Indices(Words(), ps) && WritesAll(es, ps)
    ensures Written(Words(), qs, es)
    ensures |qs| < |es| <==> SomeLosesSixty(es, ps)
    ensures |qs| == |es| ==> Values(qs) == Values(ps)
  {
    qs := ReadForms(es, ps);
    if |qs| < |es| {
      assert Writes(es[|qs|], ps[|qs|]);
      FormSticks(es[|qs|], ps[|qs|]);
    } else {
      forall k | 0 <= k < |es| ensures !LosesSixty(es[k], ps[k]) && Value(qs[k]) == Value(ps[k]) {
        assert ReadsFor(es[k], ps[k], qs[k]);
      }
    }
    ReadIsWritten(Words(), es, ps, qs);
  }

  /** Every text whose lower-case form writes the number words of `n`, in any spelling and case,
      with any non-letters or nothing between the words and any non-letters but spaces within
      them, parses to `n`; unless it writes "altmış" with a dot, and then it does not parse. */
  lemma RoundTrip(n: nat, lower: Lowering, s: string, ps: seq<nat>, es: seq<string>, gs: seq<string>)
    requires 1 <= n < 1_000_000_000_000 && IsLowering(lower)
    requires Indices(Words(), ps) && Values(ps) == NumberWords(n) && WritesAll(es, ps)
    requires |gs| == |es| + 1 && Gaps(gs) && Lowered(lower, s) == Text(es, gs)
    ensures Parse(lower, s) == if SomeLosesSixty(es, ps) then None else Some(n)
  {
    NumberWordsAddUp(n);
    NumberWordsNotEmpty(n);
    WordsSpeakable();
    WordsPrefixFree();
    var qs := FormsAreWritten(es, ps);
    TextRoundTrip(Words(), lower, s, qs, es, gs);
    assert [] + qs == qs;
  }

  /** The usual spelling of a value. */
  function Usual(v: nat): nat {
    if v == 1_000_000_000 then 0 else if v == 1_000_000 then 1 else if v == 1000 then 2 else if v == 100 then 3
    else if v == 90 then 5 else if v == 80 then 6 else if v == 70 then 7 else if v == 60 then 9 else if v == 50 then 11
    else if v == 40 then 12 else if v == 30 then 14 else if v == 20 then 15 else if v == 10 then 16
    else if v == 9 then 17 else if v == 8 then 18 else if v == 7 then 19 else if v == 6 then 20 else if v == 5 then 22
    else if v == 4 then 24 else if v == 3 then 26 else if v == 2 then 28 else 29
  }

  predicate HasWord(v: nat) {
    Usual(v) < COUNT && Value(Usual(v)) == v
  }

  lemma GroupHasWords(g: nat)
    requires g < 1000
    ensures forall v | v in Group(g) :: HasWord(v)
  {
    DigitHasWords(g / 100);
    DigitHasWords(g / 10 % 10);
    DigitHasWords(g % 10);
  }

  lemma DigitHasWords(d: nat)
    requires d < 10
    ensures d > 0 ==> HasWord(d) && HasWord(d * 10)
    ensures HasWord(100) && HasWord(1000) && HasWord(1_000_000) && HasWord(1_000_000_000)
  {
    assert d in {0, 1, 2, 3, 4, 5, 6, 7, 8, 9};
  }

  lemma {:induction false} SpokenHasWords(n: nat, level: nat)
    ensures forall v | v in Spoken(n, level) :: HasWord(v)
    decreases n
  {
    if n > 0 {
      SpokenHasWords(n / 1000, level + 1);
      GroupHasWords(n % 1000);
      DigitHasWords(0);
    }
  }

  lemma NumberHasWords(n: nat)
    ensures forall v | v in NumberWords(n) :: HasWord(v)
  {
    SpokenHasWords(n / 1000, 1);
    GroupHasWords(n % 1000);
  }

  /** The usual text of `n`, one space between the words. */
  function Print(n: nat): string
    requires 1 <= n < 1_000_000_000_000
  {
    Text(Spellings(Printed(n)), Spaces(|Printed(n)|))
  }

  function Printed(n: nat): (ps: seq<nat>)
    requires 1 <= n < 1_000_000_000_000
    ensures Indices(Words(), ps) && Values(ps) == NumberWords(n)
    ensures forall k | 0 <= k < |ps| :: ps[k] == Usual(NumberWords(n)[k])
  {
    NumberHasWords(n);
    var vs := NumberWords(n);
    assert forall k | 0 <= k < |vs| :: vs[k] in vs && HasWord(vs[k]);
    seq(|vs|, k requires 0 <= k < |vs| => Usual(vs[k]))
  }

  function Spellings(ps: seq<nat>): (es: seq<string>)
    ensures |es| == |ps| && forall k | 0 <= k < |ps| :: es[k] == Spelling(ps[k])
  {
    seq(|ps|, k requires 0 <= k < |ps| => Spelling(ps[k]))
  }

  function Spaces(n: nat): (gs: seq<string>)
    ensures |gs| == n + 1 && Gaps(gs)
  {
    seq(n + 1, k => if k == 0 || k == n then "" else " ")
  }

  /** A recasing of each character. */
  function Recased(up: char -> char, s: string): string {
    if s == "" then "" else Recased(up, s[..|s| - 1]) + [up(s[|s| - 1])]
  }

  lemma {:induction false} RecasedAppend(up: char -> char, a: string, b: string)
    ensures Recased(up, a + b) == Recased(up, a) + Recased(up, b)
    decreases |b|
  {
    if b == "" {
      assert a + b == a;
    } else {
      assert (a + b)[..|a + b| - 1] == a + b[..|b| - 1];
      RecasedAppend(up, a, b[..|b| - 1]);
    }
  }

  /** The lower-case form of a recased text. */
  function Back(lower: Lowering, up: char -> char, s: string): string {
    Lowered(lower, Recased(up, s))
  }

  lemma BackAppend(lower: Lowering, up: char -> char, a: string, b: string)
    ensures Back(lower, up, a + b) == Back(lower, up, a) + Back(lower, up, b)
  {
    RecasedAppend(up, a, b);
    LoweredAppend(lower, Recased(up, a), Recased(up, b));
  }

  function BackAll(lower: Lowering, up: char -> char, es: seq<string>): (bs: seq<string>)
    ensures |bs| == |es| && forall k | 0 <= k < |es| :: bs[k] == Back(lower, up, es[k])
  {
    seq(|es|, k requires 0 <= k < |es| => Back(lower, up, es[k]))
  }

  lemma {:induction false} BackText(lower: Lowering, up: char -> char, es: seq<string>, gs: seq<string>)
    requires |gs| == |es| + 1
    ensures Back(lower, up, Text(es, gs)) == Text(BackAll(lower, up, es), BackAll(lower, up, gs))
  {
    var bs, hs := BackAll(lower, up, es), BackAll(lower, up, gs);
    if es == [] {
      assert Text(es, gs) == gs[0] && Text(bs, hs) == hs[0];
    } else {
      var rest := Text(es[1..], gs[1..]);
      BackText(lower, up, es[1..], gs[1..]);
      assert bs[1..] == BackAll(lower, up, es[1..]) && hs[1..] == BackAll(lower, up, gs[1..]);
      BackAppend(lower, up, gs[0], es[0] + rest);
      BackAppend(lower, up, es[0], rest);
    }
  }

  /** A recasing whose letters come back, once cleaned, as `turn` says: as they were, except that
      the dotless one may have got a dot; spaces stay. */
  ghost predicate ComesBack(lower: Lowering, up: char -> char, turn: char -> char) {
    && up(' ') == ' '
    && forall c | IsLetter(c) ::
         && Spaceless(lower(up(c))) && Clean(lower(up(c))) == [turn(c)]
         && (turn(c) == c || (c == 'ı' && turn(c) == 'i'))
  }

  lemma ComesBackJoins(a: string, b: string)
    requires Spaceless(a) && Spaceless(b)
    ensures Spaceless(a + b) && Clean(a + b) == Clean(a) + Clean(b)
  {
    CleanAppend(a, b);
  }

  lemma BackLast(lower: Lowering, up: char -> char, init: string, c: char)
    ensures Back(lower, up, init + [c]) == Back(lower, up, init) + lower(up(c))
    ensures Recased(up, init + [c]) == Recased(up, init) + [up(c)]
  {
    var w := init + [c];
    assert w[..|w| - 1] == init;
    var r := Recased(up, w);
    assert r[..|r| - 1] == Recased(up, init);
  }

  lemma {:induction false} WordComesBack(lower: Lowering, up: char -> char, turn: char -> char, w: string)
    requires ComesBack(lower, up, turn) && Letters(w)
    ensures Spaceless(Back(lower, up, w)) && Clean(Back(lower, up, w)) == Recased(turn, w)
  {
    if w != "" {
      var init, c := w[..|w| - 1], w[|w| - 1];
      assert c in w && forall x | x in init :: x in w;
      WordComesBack(lower, up, turn, init);
      BackLast(lower, up, init, c);
      assert w == init + [c];
      ComesBackJoins(Back(lower, up, init), lower(up(c)));
    }
  }

  lemma {:induction false} RecasedAt(up: char -> char, w: string)
    ensures |Recased(up, w)| == |w| && forall j | 0 <= j < |w| :: Recased(up, w)[j] == up(w[j])
  {
    if w != "" { RecasedAt(up, w[..|w| - 1]); }
  }

  lemma SpacesComeBack(lower: Lowering, up: char -> char, n: nat)
    requires IsLowering(lower) && up(' ') == ' '
    ensures BackAll(lower, up, Spaces(n)) == Spaces(n)
  {
    assert " "[..0] == "" && Recased(up, " ") == " ";
    LoweredFixed(lower, " ");
  }

  lemma RecasedWrites(lower: Lowering, up: char -> char, turn: char -> char, x: string, i: nat)
    requires ComesBack(lower, up, turn) && x == Back(lower, up, Spelling(i))
    ensures Writes(x, i) && Clean(x) == Recased(turn, Spelling(i))
  {
    var w := Spelling(i);
    SpellingIsLetters(i);
    WordComesBack(lower, up, turn, w);
    RecasedAt(turn, w);
    forall j | 0 <= j < |w| ensures turn(w[j]) == w[j] || (w[j] == 'ı' && turn(w[j]) == 'i') {
      assert w[j] in w && IsLetter(w[j]);
    }
  }

  lemma RecasedSixty(lower: Lowering, up: char -> char, turn: char -> char)
    requires ComesBack(lower, up, turn)
    ensures Recased(turn, Spelling(SIXTY)) != Spelling(SIXTY) <==> turn('ı') == 'i'
  {
    var w := Spelling(SIXTY);
    RecasedAt(turn, w);
    SpellingIsLetters(SIXTY);
    assert w[4] == 'ı' && forall j | 0 <= j < |w| && j != 4 :: w[j] in w && IsLetter(w[j]) && w[j] != 'ı';
    if turn('ı') != 'i' {
      assert IsLetter('ı');
      assert forall j | 0 <= j < |w| :: Recased(turn, w)[j] == w[j];
    }
  }

  lemma RecasedForm(n: nat, lower: Lowering, up: char -> char, turn: char -> char, x: string, k: nat)
    requires 1 <= n < 1_000_000_000_000 && k < |NumberWords(n)| && ComesBack(lower, up, turn)
    requires x == Back(lower, up, Spelling(Printed(n)[k]))
    ensures Writes(x, Printed(n)[k])
    ensures LosesSixty(x, Printed(n)[k]) <==> NumberWords(n)[k] == 60 && turn('ı') == 'i'
  {
    RecasedWrites(lower, up, turn, x, Printed(n)[k]);
    UsualSixty(n, k);
    RecasedSixty(lower, up, turn);
  }

  /** Printing `n` in a case that comes back and parsing it gives `n`, unless the case puts a dot
      on the dotless letter and sixty is among the words. */
  lemma RecasedRoundTrip(n: nat, lower: Lowering, up: char -> char, turn: char -> char)
    requires 1 <= n < 1_000_000_000_000 && IsLowering(lower) && ComesBack(lower, up, turn)
    ensures Parse(lower, Recased(up, Print(n))) ==
              if 60 in NumberWords(n) && turn('ı') == 'i' then None else Some(n)
  {
    var ps := Printed(n);
    var ws, gs := Spellings(ps), Spaces(|ps|);
    var es := BackAll(lower, up, ws);
    assert Lowered(lower, Recased(up, Print(n))) == Text(es, gs) by {
      BackText(lower, up, ws, gs);
      SpacesComeBack(lower, up, |ps|);
    }
    forall k | 0 <= k < |ps|
      ensures Writes(es[k], ps[k]) && (LosesSixty(es[k], ps[k]) <==> NumberWords(n)[k] == 60 && turn('ı') == 'i')
    {
      RecasedForm(n, lower, up, turn, es[k], k);
    }
    SomeSixty(n, es, ps, turn('ı') == 'i');
    RoundTrip(n, lower, Recased(up, Print(n)), ps, es, gs);
  }

  lemma SomeSixty(n: nat, es: seq<string>, ps: seq<nat>, dots: bool)
    requires |es| == |ps| == |NumberWords(n)|
    requires forall k | 0 <= k < |ps| :: LosesSixty(es[k], ps[k]) <==> NumberWords(n)[k] == 60 && dots
    ensures SomeLosesSixty(es, ps) <==> 60 in NumberWords(n) && dots
  {
    if 60 in NumberWords(n) && dots {
      var k :| 0 <= k < |ps| && NumberWords(n)[k] == 60;
      assert LosesSixty(es[k], ps[k]);
    }
  }

  lemma OnlySixtyIsSixty(v: nat)
    requires HasWord(v)
    ensures Usual(v) == SIXTY <==> v == 60
  {
  }

  lemma UsualSixty(n: nat, k: nat)
    requires 1 <= n < 1_000_000_000_000 && k < |NumberWords(n)|
    ensures Printed(n)[k] == SIXTY <==> NumberWords(n)[k] == 60
  {
    NumberHasWords(n);
    var v := NumberWords(n)[k];
    assert v in NumberWords(n) && HasWord(v);
    OnlySixtyIsSixty(v);
  }

  lemma {:induction false} RecasedSame(s: string)
    ensures Recased(c => c, s) == s
  {
    if s != "" {
      RecasedSame(s[..|s| - 1]);
      assert s == s[..|s| - 1] + [s[|s| - 1]];
    }
  }

  lemma LettersComeBack(lower: Lowering)
    requires IsLowering(lower)
    ensures ComesBack(lower, c => c, c => c)
  {
    forall c | IsLetter(c) ensures Clean([c]) == [c] { CleanLetters([c]); }
  }

  lemma PrintRoundTrip(n: nat, lower: Lowering)
    requires 1 <= n < 1_000_000_000_000 && IsLowering(lower)
    ensures Parse(lower, Print(n)) == Some(n)
  {
    LettersComeBack(lower);
    RecasedSame(Print(n));
    RecasedRoundTrip(n, lower, c => c, c => c);
  }

  /** The Turkish capitals of the alphabet. */
  function Capital(c: char): char {
    if c == 'i' then 'İ' else if c == 'ı' then 'I'
    else if c == 'ç' then 'Ç' else if c == 'ğ' then 'Ğ' else if c == 'ö' then 'Ö'
    else if c == 'ş' then 'Ş' else if c == 'ü' then 'Ü'
    else if 'a' <= c <= 'z' then (c as int - 'a' as int + 'A' as int) as char
    else c
  }

  function Dotted(c: char): char {
    if c == 'ı' then 'i' else c
  }

  /** Lower-casing that does not know Turkish: the dotless capital gets a dot, and the dotted one
      a combining dot of its own. */
  ghost predicate LowersCapitals(lower: Lowering) {
    forall c | IsLetter(c) :: lower(Capital(c)) == if c == 'i' then ['i', '\U{307}'] else [Dotted(c)]
  }

  lemma CapitalsComeBack(lower: Lowering)
    requires LowersCapitals(lower)
    ensures ComesBack(lower, Capital, Dotted)
  {
    forall c | IsLetter(c) ensures Spaceless(lower(Capital(c))) && Clean(lower(Capital(c))) == [Dotted(c)] {
      if c == 'i' {
        CleanFirst('i', ['\U{307}']);
        CleanOfNoLetters(['\U{307}']);
        assert ['i'] + ['\U{307}'] == lower(Capital(c)) && ['i'] + "" == ['i'];
      } else {
        CleanLetters([Dotted(c)]);
      }
    }
  }

  /** Exactly the numbers without a sixty among their words are read back from their capitals. */
  lemma CapitalsRoundTrip(n: nat, lower: Lowering)
    requires 1 <= n < 1_000_000_000_000 && IsLowering(lower) && LowersCapitals(lower)
    ensures Parse(lower, Recased(Capital, Print(n))) == if 60 in NumberWords(n) then None else Some(n)
  {
    CapitalsComeBack(lower);
    RecasedRoundTrip(n, lower, Capital, Dotted);
  }

  lemma SixtyIsOneWord()
    ensures NumberWords(60) == [60]
  {
    assert Spoken(0, 1) == [] && Digits(0, 6, 0) == [60];
  }

  lemma LoneSixty(x: string) returns (ps: seq<nat>)
    requires x == "altmiş"
    ensures Indices(Words(), ps) && Values(ps) == [60]
    ensures WritesAll([x], ps) && SomeLosesSixty([x], ps)
  {
    ps := [SIXTY];
    CleanLetters(x);
    assert LosesSixty([x][0], ps[0]);
  }

  lemma LoneText(x: string)
    ensures Text([x], ["", ""]) == x && Gaps(["", ""])
  {
    assert [x][1..] == [] && ["", ""][1..] == [""];
  }

  /** One of those it refuses. */
  lemma CapitalSixtyIsRefused(lower: Lowering)
    requires IsLowering(lower) && LowersCapitals(lower)
    ensures Parse(lower, "ALTMIŞ") == None
  {
    LowerSixty(lower);
    SixtyIsOneWord();
    RefusedSixty(60, lower, "ALTMIŞ", "altmiş");
  }

  lemma RefusedSixty(n: nat, lower: Lowering, s: string, x: string)
    requires n == 60 && NumberWords(n) == [n] && IsLowering(lower)
    requires x == "altmiş" && Lowered(lower, s) == x
    ensures Parse(lower, s) == None
  {
    var ps := LoneSixty(x);
    LoneText(x);
    RoundTrip(n, lower, s, ps, [x], ["", ""]);
  }

  lemma LowerSixty(lower: Lowering)
    requires LowersCapitals(lower)
    ensures Lowered(lower, "ALTMIŞ") == "altmiş"
  {
    var s := "ALTMIŞ";
    assert lower(Capital('a')) == "a" && lower(Capital('l')) == "l" && lower(Capital('t')) == "t";
    assert lower(Capital('m')) == "m" && lower(Capital('ı')) == "i" && lower(Capital('ş')) == "ş";
    assert s[..5] == "ALTMI" && s[..5][..4] == "ALTM" && s[..5][..4][..3] == "ALT";
    assert "ALT"[..2] == "AL" && "AL"[..1] == "A" && "A"[..0] == "";
    calc {
      Lowered(lower, s);
      Lowered(lower, "ALTMI") + "ş";
      Lowered(lower, "ALTM") + "i" + "ş";
      Lowered(lower, "ALT") + "m" + "i" + "ş";
      Lowered(lower, "AL") + "t" + "m" + "i" + "ş";
      Lowered(lower, "A") + "l" + "t" + "m" + "i" + "ş";
      "altmiş";
    }
  }
}
