/**
 * Worked examples of the score extractor on concrete narratives: each one
 * pins down one corner of the three regular expressions.
 */
module ScoreExamples {
  import opened Wrappers
  import opened ScoreExtractor

  /** Nothing before position `k` matches `p`, so `re.search` reports the match at `k`. */
  lemma SearchAt(p: Pattern, s: string, k: nat)
    requires k <= |s| && MatchAt(p, s, k).Some?
    requires forall j :: 0 <= j < k ==> MatchAt(p, s, j).None?
    ensures Search(p, s, 0) == MatchAt(p, s, k)
  {
    SearchSkips(p, s, 0, k);
  }

  lemma SearchFails(p: Pattern, s: string)
    requires forall j :: 0 <= j <= |s| ==> MatchAt(p, s, j).None?
    ensures Search(p, s, 0) == None
  {
    SearchNoneIsNoMatch(p, s, 0);
  }

  /** The bare pattern can only start on a digit. */
  lemma BareStartsOnDigit(s: string, k: nat)
    requires k <= |s|
    requires k == |s| || !InClass(s[k], Digit)
    ensures MatchAt(Bare, s, k).None?
  {
  }

  /** A label pattern can only start on the label's first letter. */
  lemma LabelStartsOnLetter(w: string, s: string, k: nat)
    requires |w| > 0 && k <= |s|
    requires k + |w| > |s| || s[k] != w[0]
    ensures MatchAt(Label(w), s, k).None?
  {
    if k + |w| <= |s| {
      assert s[k..k + |w|][0] == s[k];
    }
  }

  /** Bare matches can only start on the digits of `s`. */
  lemma BareOnlyOnDigits(s: string)
    ensures forall j :: 0 <= j <= |s| && (j == |s| || !InClass(s[j], Digit)) ==> MatchAt(Bare, s, j).None?
  {
    forall j | 0 <= j <= |s| && (j == |s| || !InClass(s[j], Digit)) {
      BareStartsOnDigit(s, j);
    }
  }

  /** Label matches can only start on the label's first letter. */
  lemma LabelOnlyOnLetter(w: string, s: string)
    requires |w| > 0
    ensures forall j :: 0 <= j <= |s| && (j + |w| > |s| || s[j] != w[0]) ==> MatchAt(Label(w), s, j).None?
  {
    forall j | 0 <= j <= |s| && (j + |w| > |s| || s[j] != w[0]) {
      LabelStartsOnLetter(w, s, j);
    }
  }

  /** Past a position that does not match, the search goes on from the next one. */
  lemma SearchStep(p: Pattern, s: string, k: nat)
    requires k < |s| && MatchAt(p, s, k).None?
    ensures Search(p, s, k) == Search(p, s, k + 1)
  {
  }

  /** A stretch of text without the label's first letter holds no match: the search skips it. */
  lemma {:induction false} LabelAbsentBetween(w: string, s: string, i: nat, k: nat)
    requires |w| > 0 && i <= k <= |s|
    requires forall j | i <= j < k :: s[j] != w[0]
    ensures Search(Label(w), s, i) == Search(Label(w), s, k)
    decreases k - i
  {
    if i < k {
      LabelStartsOnLetter(w, s, i);
      LabelAbsentBetween(w, s, i + 1, k);
    }
  }

  /** A label whose first letter does not occur from `k` on is not found from `k` on. */
  lemma LabelAbsentFrom(w: string, s: string, k: nat)
    requires |w| > 0 && k <= |s|
    requires forall j | k <= j < |s| :: s[j] != w[0]
    ensures Search(Label(w), s, k) == None
  {
    LabelAbsentBetween(w, s, k, |s|);
    LabelStartsOnLetter(w, s, |s|);
  }

  /** A text whose lower-cased form has a "score" match scores that match. */
  lemma ScoreByLabel(text: string, s: string, v: real)
    requires Lower(text) == s && Search(Label("score"), s, 0) == Some(v)
    ensures ExtractScore(text) == v
  {
    FirstHitUnrolled(s);
  }

  /** Without a "score" match, a "rate" match decides. */
  lemma ScoreByRate(text: string, s: string, v: real)
    requires Lower(text) == s && Search(Label("score"), s, 0) == None && Search(Label("rate"), s, 0) == Some(v)
    ensures ExtractScore(text) == v
  {
    FirstHitUnrolled(s);
  }

  /** Without label matches, the bare pattern decides. */
  lemma ScoreByBare(text: string, s: string, v: real)
    requires Lower(text) == s && Search(Label("score"), s, 0) == None && Search(Label("rate"), s, 0) == None
    requires Search(Bare, s, 0) == Some(v)
    ensures ExtractScore(text) == v
  {
    FirstHitUnrolled(s);
  }

  /** Without any match, the fallback. */
  lemma ScoreByFallback(text: string, s: string)
    requires Lower(text) == s && Search(Label("score"), s, 0) == None && Search(Label("rate"), s, 0) == None
    requires Search(Bare, s, 0) == None
    ensures ExtractScore(text) == 7.5
  {
    FirstHitUnrolled(s);
  }

  /** "Score: 8/10" gives 8, through the label pattern. */
  lemma LabelledScore()
    ensures ExtractScore("Score: 8/10") == 8.0
  {
    assert Lower("Score: 8/10") == "score: 8/10";
    LabelledScoreScore();
    ScoreByLabel("Score: 8/10", "score: 8/10", 8.0);
  }

  lemma LabelledScoreScore()
    ensures Search(Label("score"), "score: 8/10", 0) == Some(8.0)
  {
    var s := "score: 8/10";
    assert MatchAt(Label("score"), s, 0) == Some(NumeralValue(s[7..8]));
    assert s[7..8] == "8" && NumeralValue("8") == 8.0;
  }

  /** An empty narrative gives the fallback 7.5. */
  lemma EmptyNarrative()
    ensures ExtractScore("") == 7.5
  {
    assert Lower("") == "";
    SearchFails(Label("score"), "");
    SearchFails(Label("rate"), "");
    SearchFails(Bare, "");
    ScoreByFallback("", "");
  }

  /** With no "score" label, "Rate 6.5/10" gives 6.5 through the second pattern. */
  lemma RateLabel()
    ensures ExtractScore("Rate 6.5/10") == 6.5
  {
    assert Lower("Rate 6.5/10") == "rate 6.5/10";
    RateLabelNoScore();
    RateLabelRate();
    ScoreByRate("Rate 6.5/10", "rate 6.5/10", 6.5);
  }

  lemma RateLabelNoScore()
    ensures Search(Label("score"), "rate 6.5/10", 0) == None
  {
    LabelOnlyOnLetter("score", "rate 6.5/10");
    SearchFails(Label("score"), "rate 6.5/10");
  }

  lemma RateLabelRate()
    ensures Search(Label("rate"), "rate 6.5/10", 0) == Some(6.5)
  {
    var s := "rate 6.5/10";
    assert RunEnd(s, 4, Sep) == 5;
    assert NumeralEnd(s, 5) == Some(8);
    assert s[5..8] == "6.5" && NumeralValue("6.5") == 6.5;
    assert MatchAt(Label("rate"), s, 0) == Some(6.5);
  }

  /** There is no clamping: "score: 15/10" gives 15. */
  lemma NoClamping()
    ensures ExtractScore("score: 15/10") == 15.0
  {
    assert Lower("score: 15/10") == "score: 15/10";
    NoClampingScore();
    ScoreByLabel("score: 15/10", "score: 15/10", 15.0);
  }

  lemma NoClampingScore()
    ensures Search(Label("score"), "score: 15/10", 0) == Some(15.0)
  {
    var s := "score: 15/10";
    assert RunEnd(s, 5, Sep) == 7;
    assert NumeralEnd(s, 7) == Some(9);
    assert s[7..9] == "15" && DigitsValue("15") == 15;
    assert MatchAt(Label("score"), s, 0) == Some(15.0);
  }

  /** Decimal scores keep their fraction: "score: 8.5/10" gives 8.5. */
  lemma DecimalScore()
    ensures ExtractScore("score: 8.5/10") == 8.5
  {
    assert Lower("score: 8.5/10") == "score: 8.5/10";
    DecimalScoreScore();
    ScoreByLabel("score: 8.5/10", "score: 8.5/10", 8.5);
  }

  lemma DecimalScoreScore()
    ensures Search(Label("score"), "score: 8.5/10", 0) == Some(8.5)
  {
    var s := "score: 8.5/10";
    assert s[0..5] == "score";
    assert RunEnd(s, 5, Sep) == 7;
    assert RunEnd(s, 7, Digit) == 8 && s[8] == '.' && RunEnd(s, 9, Digit) == 10;
    assert NumeralEnd(s, 7) == Some(10);
    assert s[10..13] == "/10";
    assert s[7..10] == "8.5";
    EightAndAHalf();
    assert MatchAt(Label("score"), s, 0) == Some(8.5);
  }

  lemma EightAndAHalf()
    ensures NumeralValue("8.5") == 8.5
  {
    assert DotIndex("8.5") == 1;
    assert "8.5"[..1] == "8" && "8.5"[2..] == "5";
    assert DigitsValue("8") == 8 && DigitsValue("5") == 5;
  }

  /** "score: x/10" has no digits before any "/10" and falls through to 7.5. */
  lemma NoDigitsFallsThrough()
    ensures ExtractScore("score: x/10") == 7.5
  {
    assert Lower("score: x/10") == "score: x/10";
    NoDigitsNoScore();
    NoDigitsNoRate();
    NoDigitsNoBare();
    ScoreByFallback("score: x/10", "score: x/10");
  }

  lemma NoDigitsNoScore()
    ensures Search(Label("score"), "score: x/10", 0) == None
  {
    var s := "score: x/10";
    assert RunEnd(s, 5, Sep) == 7 && NumeralEnd(s, 7) == None;
    assert MatchAt(Label("score"), s, 0) == None;
    LabelOnlyOnLetter("score", s);
    SearchFails(Label("score"), s);
  }

  lemma NoDigitsNoRate()
    ensures Search(Label("rate"), "score: x/10", 0) == None
  {
    var s := "score: x/10";
    assert s[3..7][1] != "rate"[1];
    LabelOnlyOnLetter("rate", s);
    SearchFails(Label("rate"), s);
  }

  lemma NoDigitsNoBare()
    ensures Search(Bare, "score: x/10", 0) == None
  {
    var s := "score: x/10";
    forall j | 0 <= j <= |s| ensures MatchAt(Bare, s, j).None? {
      if j == 9 {
        assert RunEnd(s, 9, Digit) == 11;
      } else if j == 10 {
        assert RunEnd(s, 10, Digit) == 11;
      } else {
        BareStartsOnDigit(s, j);
      }
    }
    SearchFails(Bare, s);
  }

  /** A dot without fraction digits defeats every pattern: "score: 8./10" gives 7.5. */
  lemma BareDotFallsThrough()
    ensures ExtractScore("score: 8./10") == 7.5
  {
    assert Lower("score: 8./10") == "score: 8./10";
    BareDotNoScore();
    BareDotNoRate();
    BareDotNoBare();
    ScoreByFallback("score: 8./10", "score: 8./10");
  }

  lemma BareDotNoScore()
    ensures Search(Label("score"), "score: 8./10", 0) == None
  {
    var s := "score: 8./10";
    assert RunEnd(s, 5, Sep) == 7 && RunEnd(s, 9, Digit) == 9 && NumeralEnd(s, 7) == Some(8);
    assert s[8..11] != "/10";
    assert MatchAt(Label("score"), s, 0) == None;
    LabelOnlyOnLetter("score", s);
    SearchFails(Label("score"), s);
  }

  lemma BareDotNoRate()
    ensures Search(Label("rate"), "score: 8./10", 0) == None
  {
    var s := "score: 8./10";
    assert s[3..7][1] != "rate"[1];
    LabelOnlyOnLetter("rate", s);
    SearchFails(Label("rate"), s);
  }

  lemma BareDotNoBare()
    ensures Search(Bare, "score: 8./10", 0) == None
  {
    var s := "score: 8./10";
    forall j | 0 <= j <= |s| ensures MatchAt(Bare, s, j).None? {
      if j == 7 {
        assert RunEnd(s, 8, Space) == 8;
      } else if j == 10 {
        assert RunEnd(s, 10, Digit) == 12;
      } else if j == 11 {
        assert RunEnd(s, 11, Digit) == 12;
      } else {
        BareStartsOnDigit(s, j);
      }
    }
    SearchFails(Bare, s);
  }

  /** Label patterns need "/10" right after the number: "score: 9 /10, rate 3/10" gives 3. */
  lemma LabelNeedsAdjacentSlash()
    ensures ExtractScore("score: 9 /10, rate 3/10") == 3.0
  {
    assert Lower("score: 9 /10, rate 3/10") == "score: 9 /10, rate 3/10";
    AdjacentSlashNoScore();
    AdjacentSlashRate();
    ScoreByRate("score: 9 /10, rate 3/10", "score: 9 /10, rate 3/10", 3.0);
  }

  lemma AdjacentSlashNoScore()
    ensures Search(Label("score"), "score: 9 /10, rate 3/10", 0) == None
  {
    AdjacentSlashNoScoreAtStart();
    SearchStep(Label("score"), "score: 9 /10, rate 3/10", 0);
    AdjacentSlashNoScoreAfterStart();
  }

  lemma AdjacentSlashNoScoreAfterStart()
    ensures Search(Label("score"), "score: 9 /10, rate 3/10", 1) == None
  {
    LabelAbsentFrom("score", "score: 9 /10, rate 3/10", 1);
  }

  lemma AdjacentSlashNoScoreAtStart()
    ensures MatchAt(Label("score"), "score: 9 /10, rate 3/10", 0) == None
  {
    var s := "score: 9 /10, rate 3/10";
    assert s[0..5] == "score";
    assert RunEnd(s, 5, Sep) == 7;
    assert NumeralEnd(s, 7) == Some(8);
    assert s[8..11][0] != "/10"[0];
  }

  lemma AdjacentSlashRate()
    ensures Search(Label("rate"), "score: 9 /10, rate 3/10", 0) == Some(3.0)
  {
    AdjacentSlashRateFrom3();
    LabelAbsentBetween("rate", "score: 9 /10, rate 3/10", 0, 3);
  }

  lemma AdjacentSlashRateFrom3()
    ensures Search(Label("rate"), "score: 9 /10, rate 3/10", 3) == Some(3.0)
  {
    AdjacentSlashRateFrom4();
    AdjacentSlashNoRateInScore();
    SearchStep(Label("rate"), "score: 9 /10, rate 3/10", 3);
  }

  lemma AdjacentSlashRateFrom4()
    ensures Search(Label("rate"), "score: 9 /10, rate 3/10", 4) == Some(3.0)
  {
    AdjacentSlashRateMatch();
    LabelAbsentBetween("rate", "score: 9 /10, rate 3/10", 4, 14);
  }

  lemma AdjacentSlashNoRateInScore()
    ensures MatchAt(Label("rate"), "score: 9 /10, rate 3/10", 3) == None
  {
    var s := "score: 9 /10, rate 3/10";
    assert s[3..7][1] != "rate"[1];
  }

  lemma AdjacentSlashRateMatch()
    ensures Search(Label("rate"), "score: 9 /10, rate 3/10", 14) == Some(3.0)
  {
    var s := "score: 9 /10, rate 3/10";
    assert s[14..18] == "rate";
    assert RunEnd(s, 18, Sep) == 19 && NumeralEnd(s, 19) == Some(20);
    assert s[20..23] == "/10" && s[19..20] == "3" && NumeralValue("3") == 3.0;
    assert MatchAt(Label("rate"), s, 14) == Some(3.0);
  }

  /** The bare pattern allows whitespace around the slash: "7 / 10" gives 7. */
  lemma BareAllowsSpaces()
    ensures ExtractScore("7 / 10") == 7.0
  {
    assert Lower("7 / 10") == "7 / 10";
    SearchFails(Label("score"), "7 / 10");
    SearchFails(Label("rate"), "7 / 10");
    BareSpacesBare();
    ScoreByBare("7 / 10", "7 / 10", 7.0);
  }

  lemma BareSpacesBare()
    ensures Search(Bare, "7 / 10", 0) == Some(7.0)
  {
    var s := "7 / 10";
    assert RunEnd(s, 0, Digit) == 1;
    assert NumeralEnd(s, 0) == Some(1);
    assert RunEnd(s, 2, Space) == 2;
    assert RunEnd(s, 1, Space) == 2;
    assert RunEnd(s, 4, Space) == 4;
    assert RunEnd(s, 3, Space) == 4;
    assert s[4..6] == "10";
    BareMatchAt(s, 0, 1, 2, 4);
    assert s[0..1] == "7" && NumeralValue("7") == 7.0;
  }

  /** Within one pattern the leftmost occurrence wins: "4/10 then 9/10" gives 4. */
  lemma LeftmostWins()
    ensures ExtractScore("4/10 then 9/10") == 4.0
  {
    assert Lower("4/10 then 9/10") == "4/10 then 9/10";
    LeftmostNoScore();
    LeftmostNoRate();
    LeftmostBare();
    ScoreByBare("4/10 then 9/10", "4/10 then 9/10", 4.0);
  }

  lemma LeftmostNoScore()
    ensures Search(Label("score"), "4/10 then 9/10", 0) == None
  {
    LabelAbsentFrom("score", "4/10 then 9/10", 0);
  }

  lemma LeftmostNoRate()
    ensures Search(Label("rate"), "4/10 then 9/10", 0) == None
  {
    LabelAbsentFrom("rate", "4/10 then 9/10", 0);
  }

  lemma LeftmostBare()
    ensures Search(Bare, "4/10 then 9/10", 0) == Some(4.0)
  {
    var s := "4/10 then 9/10";
    assert NumeralEnd(s, 0) == Some(1) && RunEnd(s, 1, Space) == 1 && RunEnd(s, 2, Space) == 2;
    assert s[2..4] == "10" && s[0..1] == "4" && NumeralValue("4") == 4.0;
    assert MatchAt(Bare, s, 0) == Some(4.0);
  }

  /** Nothing bounds the match after "10": "5/100" gives 5. */
  lemma NoBoundaryAfterTen()
    ensures ExtractScore("5/100") == 5.0
  {
    assert Lower("5/100") == "5/100";
    SearchFails(Label("score"), "5/100");
    SearchFails(Label("rate"), "5/100");
    NoBoundaryBare();
    ScoreByBare("5/100", "5/100", 5.0);
  }

  lemma NoBoundaryBare()
    ensures Search(Bare, "5/100", 0) == Some(5.0)
  {
    var s := "5/100";
    assert MatchAt(Bare, s, 0) == Some(NumeralValue(s[0..1]));
    assert s[0..1] == "5" && NumeralValue("5") == 5.0;
  }

  /** Nothing bounds "rate" on the left: "overall 2/10, accurate 3/10" gives 3, not 2. */
  lemma RateInsideWord()
    ensures ExtractScore("overall 2/10, accurate 3/10") == 3.0
  {
    assert Lower("overall 2/10, accurate 3/10") == "overall 2/10, accurate 3/10";
    InsideWordNoScore();
    InsideWordRate();
    ScoreByRate("overall 2/10, accurate 3/10", "overall 2/10, accurate 3/10", 3.0);
  }

  lemma InsideWordNoScore()
    ensures Search(Label("score"), "overall 2/10, accurate 3/10", 0) == None
  {
    LabelAbsentFrom("score", "overall 2/10, accurate 3/10", 0);
  }

  lemma InsideWordRate()
    ensures Search(Label("rate"), "overall 2/10, accurate 3/10", 0) == Some(3.0)
  {
    InsideWordRateFrom3();
    LabelAbsentBetween("rate", "overall 2/10, accurate 3/10", 0, 3);
  }

  lemma InsideWordRateFrom3()
    ensures Search(Label("rate"), "overall 2/10, accurate 3/10", 3) == Some(3.0)
  {
    InsideWordRateFrom4();
    InsideWordNoRateInOverall();
    SearchStep(Label("rate"), "overall 2/10, accurate 3/10", 3);
  }

  lemma InsideWordRateFrom4()
    ensures Search(Label("rate"), "overall 2/10, accurate 3/10", 4) == Some(3.0)
  {
    InsideWordRateMatch();
    LabelAbsentBetween("rate", "overall 2/10, accurate 3/10", 4, 18);
  }

  lemma InsideWordNoRateInOverall()
    ensures MatchAt(Label("rate"), "overall 2/10, accurate 3/10", 3) == None
  {
    var s := "overall 2/10, accurate 3/10";
    assert s[3..7][2] != "rate"[2];
  }

  lemma InsideWordRateMatch()
    ensures Search(Label("rate"), "overall 2/10, accurate 3/10", 18) == Some(3.0)
  {
    var s := "overall 2/10, accurate 3/10";
    assert s[18..22] == "rate";
    assert RunEnd(s, 22, Sep) == 23 && NumeralEnd(s, 23) == Some(24);
    assert s[24..27] == "/10" && s[23..24] == "3" && NumeralValue("3") == 3.0;
    assert MatchAt(Label("rate"), s, 18) == Some(3.0);
  }

  /** A "score" label wins even when a "rate" label and a bare "N/10" come first. */
  lemma LabelWinsOverEarlierRate()
    ensures ExtractScore("rate 3/10 then 4/10, score: 9/10") == 9.0
  {
    assert Lower("rate 3/10 then 4/10, score: 9/10") == "rate 3/10 then 4/10, score: 9/10";
    LabelWinsScore();
    ScoreByLabel("rate 3/10 then 4/10, score: 9/10", "rate 3/10 then 4/10, score: 9/10", 9.0);
  }

  lemma LabelWinsScore()
    ensures Search(Label("score"), "rate 3/10 then 4/10, score: 9/10", 0) == Some(9.0)
  {
    LabelAbsentBetween("score", "rate 3/10 then 4/10, score: 9/10", 0, 21);
    LabelWinsScoreMatch();
  }

  lemma LabelWinsScoreMatch()
    ensures Search(Label("score"), "rate 3/10 then 4/10, score: 9/10", 21) == Some(9.0)
  {
    var s := "rate 3/10 then 4/10, score: 9/10";
    assert s[21..26] == "score";
    assert RunEnd(s, 26, Sep) == 28 && NumeralEnd(s, 28) == Some(29);
    assert s[29..32] == "/10" && s[28..29] == "9" && NumeralValue("9") == 9.0;
    assert MatchAt(Label("score"), s, 21) == Some(9.0);
  }
}
