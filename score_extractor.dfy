// The score extractor that every design agent carries (`_extract_score`).
//
// The agent lower-cases the narrative and tries three regular expressions in
// priority order (a "score" label, a "rate" label, a bare "N/10"); the first one
// that `re.search` finds anywhere gives the score (its group 1, read with
// `float`), and 7.5 is returned when none matches.
//
// The model is a hand-written leftmost matcher (`MatchAt`, `Search`) proved equal
// to a declarative reading of the three expressions (`Matches`, `RegexFinds`).
// Text is ASCII: `\d` is 0-9, `\s` is the ASCII whitespace Python recognises
// (space, 9-13 and 28-31) and lower-casing maps A-Z only. Scores are exact reals.
module ScoreExtractor {
  import opened Wrappers

  /** One of the extractor's regular expressions. */
  datatype Pattern =
    | Label(word: string)  // `word[:\s]+(\d+(?:\.\d+)?)/10`
    | Bare                 // `(\d+(?:\.\d+)?)\s*/\s*10`

  /** The patterns in the order the extractor tries them. */
  const Patterns: seq<Pattern> := [Label("score"), Label("rate"), Bare]

  /** The score returned when no pattern matches. */
  const Fallback: real := 7.5

  // ---------------------------------------------------------------------------
  // Characters

  datatype CharClass = Digit | Space | Sep

  predicate IsSpace(c: char) {
    c == ' ' || ('\t' <= c <= '\r') || (28 <= c as int <= 31)
  }

  predicate InClass(c: char, k: CharClass) {
    match k
    case Digit => '0' <= c <= '9'
    case Space => IsSpace(c)
    case Sep => c == ':' || IsSpace(c)
  }

  /** Every character of `s[i..j]` is in class `k`. */
  predicate AllIn(s: string, i: nat, j: nat, k: CharClass)
    requires i <= j <= |s|
  {
    forall m :: i <= m < j ==> InClass(s[m], k)
  }

  function LowerChar(c: char): char {
    if 'A' <= c <= 'Z' then (c as int + 32) as char else c
  }

  /** Python's `str.lower` on ASCII text. */
  function Lower(s: string): string {
    seq(|s|, i requires 0 <= i < |s| => LowerChar(s[i]))
  }

  // ---------------------------------------------------------------------------
  // Numerals and their values

  /** `s[a..b]` is a numeral of the form `\d+` or `\d+\.\d+`. */
  ghost predicate IsNumeral(s: string, a: nat, b: nat)
    requires a <= b <= |s|
  {
    || (a < b && AllIn(s, a, b, Digit))
    || (exists d :: a < d < b - 1 && s[d] == '.' && AllIn(s, a, d, Digit) && AllIn(s, d + 1, b, Digit))
  }

  function DigitValue(c: char): nat {
    if '0' <= c <= '9' then c as int - '0' as int else 0
  }

  function DigitsValue(t: string): nat {
    if |t| == 0 then 0 else DigitsValue(t[..|t| - 1]) * 10 + DigitValue(t[|t| - 1])
  }

  function Pow10(n: nat): (r: nat)
    ensures r > 0
  {
    if n == 0 then 1 else 10 * Pow10(n - 1)
  }

  function DotIndex(t: string): (d: nat)
    ensures d <= |t|
  {
    if |t| == 0 || t[0] == '.' then 0 else 1 + DotIndex(t[1..])
  }

  /** The value `float` reads from a numeral, taken exactly. */
  function NumeralValue(t: string): (v: real)
    ensures v >= 0.0
  {
    var d := DotIndex(t);
    var whole := DigitsValue(t[..d]) as real;
    if d + 1 <= |t| then whole + (DigitsValue(t[d + 1..]) as real) / (Pow10(|t| - d - 1) as real)
    else whole
  }

  // ---------------------------------------------------------------------------
  // The matcher

  /** The end of the longest run of class `k` starting at `i` (a greedy `[...]*`). */
  function RunEnd(s: string, i: nat, k: CharClass): (j: nat)
    requires i <= |s|
    ensures i <= j <= |s|
    ensures AllIn(s, i, j, k)
    ensures j == |s| || !InClass(s[j], k)
    decreases |s| - i
  {
    if i < |s| && InClass(s[i], k) then RunEnd(s, i + 1, k) else i
  }

  /** Greedy `\d+(?:\.\d+)?` at `i`: where the numeral ends, if one starts there. */
  function NumeralEnd(s: string, i: nat): (r: Option<nat>)
    requires i <= |s|
    ensures r.Some? ==> i < r.value <= |s|
  {
    var j := RunEnd(s, i, Digit);
    if j == i then None
    else if j < |s| && s[j] == '.' && RunEnd(s, j + 1, Digit) > j + 1 then Some(RunEnd(s, j + 1, Digit))
    else Some(j)
  }

  /** The group-1 value of pattern `p` matched at position `k` of `s`, if it matches there. */
  function MatchAt(p: Pattern, s: string, k: nat): (r: Option<real>)
    requires k <= |s|
    ensures r.Some? ==> r.value >= 0.0
  {
    match p
    case Label(w) =>
      if k + |w| <= |s| && s[k..k + |w|] == w then
        var a := RunEnd(s, k + |w|, Sep);
        if a == k + |w| then None
        else match NumeralEnd(s, a)
          case None => None
          case Some(b) => if b + 3 <= |s| && s[b..b + 3] == "/10" then Some(NumeralValue(s[a..b])) else None
      else None
    case Bare =>
      match NumeralEnd(s, k)
      case None => None
      case Some(b) =>
        var c := RunEnd(s, b, Space);
        if c < |s| && s[c] == '/' then
          var d := RunEnd(s, c + 1, Space);
          if d + 2 <= |s| && s[d..d + 2] == "10" then Some(NumeralValue(s[k..b])) else None
        else None
  }

  /** `re.search`: the match at the leftmost position from `k` on. */
  function Search(p: Pattern, s: string, k: nat): (r: Option<real>)
    requires k <= |s|
    ensures r.Some? ==> r.value >= 0.0
    decreases |s| - k
  {
    if MatchAt(p, s, k).Some? then MatchAt(p, s, k)
    else if k == |s| then None
    else Search(p, s, k + 1)
  }

  /** The loop over the patterns: the first pattern that finds anything decides. */
  function FirstHit(ps: seq<Pattern>, s: string): (r: Option<real>)
    ensures r.Some? ==> r.value >= 0.0
  {
    if |ps| == 0 then None
    else if Search(ps[0], s, 0).Some? then Search(ps[0], s, 0)
    else FirstHit(ps[1..], s)
  }

  /** `_extract_score`. */
  function ExtractScore(text: string): (score: real)
    ensures score >= 0.0
    ensures FirstHit(Patterns, Lower(text)) == None ==> score == Fallback
  {
    FirstHit(Patterns, Lower(text)).GetOr(Fallback)
  }

  // ---------------------------------------------------------------------------
  // What the regular expressions mean, stated without the matcher

  /** `\s*10` matches `s` from position `i`. */
  ghost predicate TenAt(s: string, i: nat) {
    exists d: nat :: i <= d && d + 2 <= |s| && AllIn(s, i, d, Space) && s[d..d + 2] == "10"
  }

  /** `\s*` followed by a slash, then `\s*10`, matches `s` from position `b`. */
  ghost predicate SlashTenAt(s: string, b: nat) {
    exists c: nat :: b <= c < |s| && AllIn(s, b, c, Space) && s[c] == '/' && TenAt(s, c + 1)
  }

  /** Pattern `p` matches `s` from position `k`, its group 1 being the numeral `s[a..b]`. */
  ghost predicate MatchesWith(p: Pattern, s: string, k: nat, a: nat, b: nat) {
    match p
    case Label(w) =>
      && k + |w| < a < b && b + 3 <= |s|
      && s[k..k + |w|] == w && AllIn(s, k + |w|, a, Sep)
      && IsNumeral(s, a, b) && s[b..b + 3] == "/10"
    case Bare =>
      a == k < b <= |s| && IsNumeral(s, a, b) && SlashTenAt(s, b)
  }

  /** Pattern `p` matches at position `k` and its group 1 reads as `v`. */
  ghost predicate Matches(p: Pattern, s: string, k: nat, v: real) {
    exists a: nat, b: nat :: MatchesWith(p, s, k, a, b) && a <= b <= |s| && v == NumeralValue(s[a..b])
  }

  /** `re.search(p, s)` succeeds and its group 1 reads as `v`: the leftmost start position wins. */
  ghost predicate RegexFinds(p: Pattern, s: string, v: real) {
    exists k: nat :: k <= |s| && Matches(p, s, k, v) && forall k': nat, v' :: k' < k ==> !Matches(p, s, k', v')
  }

  /** `re.search(p, s)` succeeds. */
  ghost predicate Finds(p: Pattern, s: string) {
    exists v :: RegexFinds(p, s, v)
  }

  // ---------------------------------------------------------------------------
  // The matcher agrees with the regular expressions

  lemma {:induction false} RunEndExact(s: string, i: nat, j: nat, k: CharClass)
    requires i <= j <= |s|
    requires AllIn(s, i, j, k)
    requires j == |s| || !InClass(s[j], k)
    ensures RunEnd(s, i, k) == j
    decreases j - i
  {
    if i < j {
      RunEndExact(s, i + 1, j, k);
    }
  }

  lemma NumeralEndSound(s: string, i: nat)
    requires i <= |s| && NumeralEnd(s, i).Some?
    ensures IsNumeral(s, i, NumeralEnd(s, i).value)
  {
    var j := RunEnd(s, i, Digit);
    var b := NumeralEnd(s, i).value;
    if b != j {
      assert i < j < b - 1 && s[j] == '.' && AllIn(s, i, j, Digit) && AllIn(s, j + 1, b, Digit);
    }
  }

  /** A numeral followed by neither a digit nor a dot is exactly what the greedy parse takes. */
  lemma NumeralEndExact(s: string, a: nat, b: nat)
    requires a <= b <= |s|
    requires IsNumeral(s, a, b)
    requires b == |s| || (!InClass(s[b], Digit) && s[b] != '.')
    ensures NumeralEnd(s, a) == Some(b)
  {
    if a < b && AllIn(s, a, b, Digit) {
      RunEndExact(s, a, b, Digit);
    } else {
      var d :| a < d < b - 1 && s[d] == '.' && AllIn(s, a, d, Digit) && AllIn(s, d + 1, b, Digit);
      RunEndExact(s, a, d, Digit);
      RunEndExact(s, d + 1, b, Digit);
    }
  }

  lemma NumeralStartsWithDigit(s: string, a: nat, b: nat)
    requires a <= b <= |s| && IsNumeral(s, a, b)
    ensures a < b && InClass(s[a], Digit)
  {
  }

  lemma LabelMatchSound(w: string, s: string, k: nat)
    requires k <= |s| && MatchAt(Label(w), s, k).Some?
    ensures Matches(Label(w), s, k, MatchAt(Label(w), s, k).value)
  {
    if k + |w| <= |s| && s[k..k + |w|] == w {
      var a := RunEnd(s, k + |w|, Sep);
      var e := NumeralEnd(s, a);
      if a != k + |w| && e.Some? {
        var b := e.value;
        if b + 3 <= |s| && s[b..b + 3] == "/10" {
          NumeralEndSound(s, a);
          assert MatchesWith(Label(w), s, k, a, b);
        }
      }
    }
  }

  lemma BareMatchSound(s: string, k: nat)
    requires k <= |s| && MatchAt(Bare, s, k).Some?
    ensures Matches(Bare, s, k, MatchAt(Bare, s, k).value)
  {
    var b := NumeralEnd(s, k).value;
    var c := RunEnd(s, b, Space);
    var d := RunEnd(s, c + 1, Space);
    NumeralEndSound(s, k);
    assert TenAt(s, c + 1);
    assert SlashTenAt(s, b);
    assert MatchesWith(Bare, s, k, k, b);
  }

  lemma MatchAtSound(p: Pattern, s: string, k: nat)
    requires k <= |s| && MatchAt(p, s, k).Some?
    ensures Matches(p, s, k, MatchAt(p, s, k).value)
  {
    match p
    case Label(w) => LabelMatchSound(w, s, k);
    case Bare => BareMatchSound(s, k);
  }

  lemma LabelMatchComplete(w: string, s: string, k: nat, a: nat, b: nat)
    requires MatchesWith(Label(w), s, k, a, b)
    ensures a <= b <= |s| && k <= |s| && MatchAt(Label(w), s, k) == Some(NumeralValue(s[a..b]))
  {
    NumeralStartsWithDigit(s, a, b);
    RunEndExact(s, k + |w|, a, Sep);
    NumeralEndExact(s, a, b);
    LabelMatchAt(w, s, k, a, b);
  }

  /** The label branch of the matcher, given what each of its steps returns. */
  lemma LabelMatchAt(w: string, s: string, k: nat, a: nat, b: nat)
    requires k + |w| < a <= b && b + 3 <= |s| && s[k..k + |w|] == w
    requires RunEnd(s, k + |w|, Sep) == a && NumeralEnd(s, a) == Some(b) && s[b..b + 3] == "/10"
    ensures MatchAt(Label(w), s, k) == Some(NumeralValue(s[a..b]))
  {
  }

  lemma BareMatchComplete(s: string, k: nat, b: nat)
    requires MatchesWith(Bare, s, k, k, b)
    ensures k <= b <= |s| && MatchAt(Bare, s, k) == Some(NumeralValue(s[k..b]))
  {
    var c: nat :| b <= c < |s| && AllIn(s, b, c, Space) && s[c] == '/' && TenAt(s, c + 1);
    var d: nat :| c + 1 <= d && d + 2 <= |s| && AllIn(s, c + 1, d, Space) && s[d..d + 2] == "10";
    assert b < |s| && !InClass(s[b], Digit) && s[b] != '.' by {
      if b < c { assert InClass(s[b], Space); }
    }
    NumeralEndExact(s, k, b);
    RunEndExact(s, b, c, Space);
    assert s[d..d + 2][0] == s[d];
    RunEndExact(s, c + 1, d, Space);
    BareMatchAt(s, k, b, c, d);
  }

  /** The bare branch of the matcher, given what each of its steps returns. */
  lemma BareMatchAt(s: string, k: nat, b: nat, c: nat, d: nat)
    requires k <= b <= c < |s| && NumeralEnd(s, k) == Some(b) && RunEnd(s, b, Space) == c && s[c] == '/'
    requires RunEnd(s, c + 1, Space) == d && d + 2 <= |s| && s[d..d + 2] == "10"
    ensures MatchAt(Bare, s, k) == Some(NumeralValue(s[k..b]))
  {
  }

  lemma MatchAtComplete(p: Pattern, s: string, k: nat, a: nat, b: nat)
    requires MatchesWith(p, s, k, a, b)
    ensures a <= b <= |s| && k <= |s| && MatchAt(p, s, k) == Some(NumeralValue(s[a..b]))
  {
    match p
    case Label(w) => LabelMatchComplete(w, s, k, a, b);
    case Bare => BareMatchComplete(s, k, b);
  }

  /** The hand-written matcher at one position is the regular expression at that position. */
  lemma MatchAtCorrect(p: Pattern, s: string, k: nat, v: real)
    requires k <= |s|
    ensures MatchAt(p, s, k) == Some(v) <==> Matches(p, s, k, v)
  {
    if MatchAt(p, s, k) == Some(v) {
      MatchAtSound(p, s, k);
    }
    if Matches(p, s, k, v) {
      var a: nat, b: nat :| MatchesWith(p, s, k, a, b) && a <= b <= |s| && v == NumeralValue(s[a..b]);
      MatchAtComplete(p, s, k, a, b);
    }
  }

  /** The matcher's result at every position of `s`, from 0 to `|s|`. */
  ghost function Hits(p: Pattern, s: string): (h: seq<Option<real>>)
    ensures |h| == |s| + 1
    ensures forall j | 0 <= j <= |s| :: h[j] == MatchAt(p, s, j)
  {
    seq(|s| + 1, j requires 0 <= j <= |s| => MatchAt(p, s, j))
  }

  /** The first present entry of `h` from `k` on: a search over results already computed. */
  ghost function FirstSome(h: seq<Option<real>>, k: nat): Option<real>
    requires k < |h|
    decreases |h| - k
  {
    if h[k].Some? then h[k] else if k == |h| - 1 then None else FirstSome(h, k + 1)
  }

  lemma {:induction false} SearchIsFirstSome(p: Pattern, s: string, k: nat)
    requires k <= |s|
    ensures Search(p, s, k) == FirstSome(Hits(p, s), k)
    decreases |s| - k
  {
    if MatchAt(p, s, k).None? && k < |s| {
      SearchIsFirstSome(p, s, k + 1);
    }
  }

  lemma {:induction false} FirstSomeSkips(h: seq<Option<real>>, i: nat, k: nat)
    requires i <= k < |h|
    requires forall j | i <= j < k :: h[j].None?
    ensures FirstSome(h, i) == FirstSome(h, k)
    decreases k - i
  {
    if i < k {
      FirstSomeSkips(h, i + 1, k);
    }
  }

  lemma {:induction false} FirstSomeNone(h: seq<Option<real>>, i: nat)
    requires i < |h|
    ensures FirstSome(h, i).None? <==> forall j | i <= j < |h| :: h[j].None?
    decreases |h| - i
  {
    if h[i].None? && i < |h| - 1 {
      FirstSomeNone(h, i + 1);
      assert (forall j | i <= j < |h| :: h[j].None?) <==> (forall j | i + 1 <= j < |h| :: h[j].None?);
    }
  }

  lemma {:induction false} FirstSomeStops(h: seq<Option<real>>, i: nat) returns (k: nat)
    requires i < |h| && FirstSome(h, i).Some?
    ensures i <= k < |h| && h[k] == FirstSome(h, i)
    ensures forall j | i <= j < k :: h[j].None?
    decreases |h| - i
  {
    if h[i].Some? {
      k := i;
    } else {
      k := FirstSomeStops(h, i + 1);
    }
  }

  /** No position before `k` hits, so the search from `i` goes on to `k`. */
  lemma SearchSkips(p: Pattern, s: string, i: nat, k: nat)
    requires i <= k <= |s|
    requires forall j :: i <= j < k ==> MatchAt(p, s, j).None?
    ensures Search(p, s, i) == Search(p, s, k)
  {
    var h := Hits(p, s);
    SearchIsFirstSome(p, s, i);
    SearchIsFirstSome(p, s, k);
    FirstSomeSkips(h, i, k);
  }

  /** A search finds nothing exactly when no position from `i` on hits. */
  lemma SearchNoneIsNoMatch(p: Pattern, s: string, i: nat)
    requires i <= |s|
    ensures Search(p, s, i).None? <==> forall j :: i <= j <= |s| ==> MatchAt(p, s, j).None?
  {
    var h := Hits(p, s);
    SearchIsFirstSome(p, s, i);
    FirstSomeNone(h, i);
  }

  /** A successful search stops at the first position that hits. */
  lemma SearchStopsFirst(p: Pattern, s: string, i: nat)
    requires i <= |s| && Search(p, s, i).Some?
    ensures exists k :: i <= k <= |s| && MatchAt(p, s, k) == Search(p, s, i) && forall j :: i <= j < k ==> MatchAt(p, s, j).None?
  {
    var h := Hits(p, s);
    SearchIsFirstSome(p, s, i);
    var k := FirstSomeStops(h, i);
    assert forall j :: i <= j < k ==> MatchAt(p, s, j).None?;
    assert MatchAt(p, s, k) == Search(p, s, i);
  }

  /** The hand-written search is `re.search`: it finds `v` exactly when the leftmost match has group `v`. */
  lemma SearchCorrect(p: Pattern, s: string, v: real)
    ensures Search(p, s, 0) == Some(v) <==> RegexFinds(p, s, v)
  {
    if Search(p, s, 0) == Some(v) {
      SearchStopsFirst(p, s, 0);
      var k :| 0 <= k <= |s| && MatchAt(p, s, k) == Some(v) && forall j :: 0 <= j < k ==> MatchAt(p, s, j).None?;
      MatchAtCorrect(p, s, k, v);
      forall k': nat, v' | k' < k ensures !Matches(p, s, k', v') {
        MatchAtCorrect(p, s, k', v');
      }
    }
    if RegexFinds(p, s, v) {
      var k: nat :| k <= |s| && Matches(p, s, k, v) && forall k': nat, v' :: k' < k ==> !Matches(p, s, k', v');
      forall j | 0 <= j < k ensures MatchAt(p, s, j).None? {
        if MatchAt(p, s, j).Some? {
          MatchAtCorrect(p, s, j, MatchAt(p, s, j).value);
        }
      }
      MatchAtCorrect(p, s, k, v);
      SearchSkips(p, s, 0, k);
    }
  }

  // ---------------------------------------------------------------------------
  // The extractor

  lemma NotFindsIsNone(p: Pattern, s: string)
    requires !Finds(p, s)
    ensures Search(p, s, 0) == None
  {
    if Search(p, s, 0).Some? {
      SearchCorrect(p, s, Search(p, s, 0).value);
    }
  }

  /** The loop over the three patterns, unrolled. */
  lemma FirstHitUnrolled(s: string)
    ensures FirstHit(Patterns, s) ==
      if Search(Label("score"), s, 0).Some? then Search(Label("score"), s, 0)
      else if Search(Label("rate"), s, 0).Some? then Search(Label("rate"), s, 0)
      else Search(Bare, s, 0)
  {
    var ps := Patterns;
    assert ps[0] == Label("score") && ps[1..][0] == Label("rate") && ps[1..][1..][0] == Bare;
    assert ps[1..][1..][1..] == [];
    assert FirstHit(ps[1..][1..], s) == if Search(Bare, s, 0).Some? then Search(Bare, s, 0) else FirstHit([], s);
  }

  /** The priority order of the patterns, stated against `re.search` on the lower-cased text. */
  lemma ExtractScorePriority(text: string, v: real)
    ensures RegexFinds(Label("score"), Lower(text), v) ==> ExtractScore(text) == v
    ensures !Finds(Label("score"), Lower(text)) && RegexFinds(Label("rate"), Lower(text), v)
      ==> ExtractScore(text) == v
    ensures !Finds(Label("score"), Lower(text)) && !Finds(Label("rate"), Lower(text)) && RegexFinds(Bare, Lower(text), v)
      ==> ExtractScore(text) == v
    ensures !Finds(Label("score"), Lower(text)) && !Finds(Label("rate"), Lower(text)) && !Finds(Bare, Lower(text))
      ==> ExtractScore(text) == Fallback
  {
    var s := Lower(text);
    FirstHitUnrolled(s);
    SearchCorrect(Label("score"), s, v);
    SearchCorrect(Label("rate"), s, v);
    SearchCorrect(Bare, s, v);
    if !Finds(Label("score"), s) {
      NotFindsIsNone(Label("score"), s);
      if !Finds(Label("rate"), s) {
        NotFindsIsNone(Label("rate"), s);
        if !Finds(Bare, s) {
          NotFindsIsNone(Bare, s);
        }
      }
    }
  }

  /** A numeral of `s` standing just before `\s*\/\s*10` reads as `v`. */
  ghost predicate NumeralBeforeSlashTen(s: string, v: real) {
    exists a: nat, b: nat :: a < b <= |s| && IsNumeral(s, a, b) && SlashTenAt(s, b) && v == NumeralValue(s[a..b])
  }

  lemma SlashTenFollowsMatch(p: Pattern, s: string, k: nat, a: nat, b: nat)
    requires MatchesWith(p, s, k, a, b)
    ensures a < b <= |s| && IsNumeral(s, a, b) && SlashTenAt(s, b)
  {
    if p.Label? {
      assert s[b..b + 3][1..] == s[b + 1..b + 3];
      assert AllIn(s, b + 1, b + 1, Space);
      assert TenAt(s, b + 1);
      assert AllIn(s, b, b, Space);
    }
  }

  lemma SearchHitComesFromText(p: Pattern, s: string)
    requires Search(p, s, 0).Some?
    ensures NumeralBeforeSlashTen(s, Search(p, s, 0).value)
  {
    SearchStopsFirst(p, s, 0);
    var k :| 0 <= k <= |s| && MatchAt(p, s, k) == Search(p, s, 0);
    MatchAtSound(p, s, k);
    var a: nat, b: nat :| MatchesWith(p, s, k, a, b) && a <= b <= |s| && MatchAt(p, s, k).value == NumeralValue(s[a..b]);
    SlashTenFollowsMatch(p, s, k, a, b);
  }

  /** Whatever pattern hits, the score is a numeral of the lower-cased text standing just before `/10`. */
  lemma ScoreComesFromText(text: string)
    requires FirstHit(Patterns, Lower(text)).Some?
    ensures NumeralBeforeSlashTen(Lower(text), ExtractScore(text))
  {
    var s := Lower(text);
    FirstHitUnrolled(s);
    if Search(Label("score"), s, 0).Some? {
      SearchHitComesFromText(Label("score"), s);
    } else if Search(Label("rate"), s, 0).Some? {
      SearchHitComesFromText(Label("rate"), s);
    } else {
      SearchHitComesFromText(Bare, s);
    }
  }

  /** Matching ignores case: a text and its lower-cased form give the same score. */
  lemma ExtractScoreIgnoresCase(text: string)
    ensures ExtractScore(Lower(text)) == ExtractScore(text)
  {
    assert Lower(Lower(text)) == Lower(text);
  }
}
