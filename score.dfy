/** The orchestrator's score extraction: the first whole-number token from 0
    to 100 in the Reviewer's free text, as found by the regular-expression
    search `\b(100|[1-9]?[0-9])\b`, or 0 when there is none. */
module ScoreExtraction {
  import opened Results

  /** A character that the pattern's `\w` class matches (ASCII letters,
      digits and the underscore). */
  predicate IsWordChar(c: char)
  {
    ('a' <= c <= 'z') || ('A' <= c <= 'Z') || ('0' <= c <= '9') || c == '_'
  }

  predicate IsDigit(c: char)
  {
    '0' <= c <= '9'
  }

  function DigitValue(c: char): (v: nat)
    requires IsDigit(c)
    ensures v <= 9
  {
    c as int - '0' as int
  }

  predicate AllDigits(d: string)
  {
    forall i | 0 <= i < |d| :: IsDigit(d[i])
  }

  /** The decimal value of a digit string, as `int()` reads it. */
  function DecimalValue(d: string): (v: nat)
    requires AllDigits(d)
    ensures v < Pow10(|d|)
  {
    if |d| == 0 then 0 else DecimalValue(d[..|d| - 1]) * 10 + DigitValue(d[|d| - 1])
  }

  function Pow10(n: nat): (p: nat)
    ensures p >= 1
  {
    if n == 0 then 1 else 10 * Pow10(n - 1)
  }

  /** `\b` at index `i`: a word character on exactly one side of it. */
  predicate AtBoundary(s: string, i: nat)
    requires i <= |s|
  {
    (0 < i && IsWordChar(s[i - 1])) != (i < |s| && IsWordChar(s[i]))
  }

  // ---------------------------------------------------------------------
  // The search as the regular-expression engine performs it

  /** The length of the match starting at `p`, if any: `\b`, then the
      alternatives in the order the engine backtracks through them ("100",
      then `[1-9][0-9]`, then `[0-9]`), each followed by `\b`. */
  function MatchAt(s: string, p: nat): (r: Option<nat>)
    requires p <= |s|
    ensures r.Some? ==> 1 <= r.value <= 3 && p + r.value <= |s| && AllDigits(s[p..p + r.value])
    ensures r.Some? ==> AtBoundary(s, p) && AtBoundary(s, p + r.value)
  {
    if !AtBoundary(s, p) then None
    else if p + 3 <= |s| && s[p..p + 3] == "100" && AtBoundary(s, p + 3) then Some(3)
    else if p + 2 <= |s| && '1' <= s[p] <= '9' && IsDigit(s[p + 1]) && AtBoundary(s, p + 2) then Some(2)
    else if p + 1 <= |s| && IsDigit(s[p]) && AtBoundary(s, p + 1) then Some(1)
    else None
  }

  /** `re.search` from position `from`: the first start position at which the
      pattern matches, with the length of the match. */
  function Search(s: string, from: nat): (r: Option<(nat, nat)>)
    requires from <= |s|
    ensures r.Some? ==> from <= r.value.0 <= |s| && MatchAt(s, r.value.0) == Some(r.value.1)
    decreases |s| - from
  {
    match MatchAt(s, from)
    case Some(n) => Some((from, n))
    case None => if from == |s| then None else Search(s, from + 1)
  }

  /** `extract_score(text)`: the matched digits' value, or 0 without a match. */
  function ExtractScore(text: string): (score: nat)
    ensures score <= 100
  {
    match Search(text, 0)
    case Some((p, n)) =>
      MatchIsToken(text, p);
      DecimalValue(text[p..p + n])
    case None => 0
  }

  // ---------------------------------------------------------------------
  // The reference: score tokens

  /** `s[p..e]` is a score token: a maximal run of word characters that is
      all digits, has no leading zero unless it is "0", and is at most 100. */
  ghost predicate IsScoreToken(s: string, p: int, e: int)
  {
    0 <= p < e <= |s| &&
    (p == 0 || !IsWordChar(s[p - 1])) &&
    (e == |s| || !IsWordChar(s[e])) &&
    AllDigits(s[p..e]) &&
    (s[p] == '0' ==> e == p + 1) &&
    DecimalValue(s[p..e]) <= 100
  }

  /** No score token starts before `p`. */
  ghost predicate NoTokenBefore(s: string, p: int)
  {
    forall q, e | q < p :: !IsScoreToken(s, q, e)
  }

  /** A digit string without a leading zero is at least 10 to the power of
      its length less one. */
  lemma {:induction false} DecimalValueLowerBound(d: string)
    requires AllDigits(d) && |d| >= 1 && d[0] != '0'
    ensures DecimalValue(d) >= Pow10(|d| - 1)
    decreases |d|
  {
    if |d| == 1 {
      assert d[..0] == [];
    } else {
      var init := d[..|d| - 1];
      assert init[0] == d[0];
      DecimalValueLowerBound(init);
    }
  }

  /** The value of a digit string of length one to three, digit by digit. */
  lemma DecimalValueShort(d: string)
    requires AllDigits(d) && 1 <= |d| <= 3
    ensures |d| == 1 ==> DecimalValue(d) == DigitValue(d[0])
    ensures |d| == 2 ==> DecimalValue(d) == 10 * DigitValue(d[0]) + DigitValue(d[1])
    ensures |d| == 3 ==> DecimalValue(d) == 100 * DigitValue(d[0]) + 10 * DigitValue(d[1]) + DigitValue(d[2])
  {
    assert d[..|d| - 1][..0] == [];
    if |d| >= 2 {
      assert d[..|d| - 1][..1] == d[..1];
    }
    if |d| == 3 {
      assert d[..2][..1] == d[..1];
    }
  }

  /** A match found at `p` is the score token starting at `p`. */
  lemma MatchIsToken(s: string, p: nat)
    requires p <= |s| && MatchAt(s, p).Some?
    ensures p + MatchAt(s, p).value <= |s| && IsScoreToken(s, p, p + MatchAt(s, p).value)
  {
    var m := MatchAt(s, p);
    var d := s[p..p + m.value];
    DecimalValueShort(d);
    if m.value == 3 {
      assert d == "100";
    }
  }

  /** Where nothing matches, no score token starts. */
  lemma NoTokenWithoutMatch(s: string, p: nat)
    requires p <= |s| && MatchAt(s, p).None?
    ensures forall e :: !IsScoreToken(s, p, e)
  {
    forall e | IsScoreToken(s, p, e)
      ensures false
    {
      TokenIsMatched(s, p, e);
    }
  }

  /** A match found at `p` is exactly the score token starting at `p`, and a
      score token starting at `p` is found there. */
  lemma MatchAtIsToken(s: string, p: nat)
    requires p <= |s|
    ensures MatchAt(s, p).Some? ==>
      p + MatchAt(s, p).value <= |s| && IsScoreToken(s, p, p + MatchAt(s, p).value)
    ensures forall e :: IsScoreToken(s, p, e) ==> MatchAt(s, p) == Some(e - p)
  {
    if MatchAt(s, p).Some? {
      MatchIsToken(s, p);
    }
    forall e | IsScoreToken(s, p, e)
      ensures MatchAt(s, p) == Some(e - p)
    {
      TokenIsMatched(s, p, e);
    }
  }

  /** A score token is at most three characters long, and the search's
      alternatives accept it at its start. */
  lemma TokenIsMatched(s: string, p: nat, e: int)
    requires IsScoreToken(s, p, e)
    ensures MatchAt(s, p) == Some(e - p)
  {
    var d := s[p..e];
    TokenAtMostThree(s, p, e);
    DecimalValueShort(d);
    if e - p == 3 {
      assert d[1] == s[p + 1] && d[2] == s[p + 2];
      assert s[p..p + 3] == "100";
    } else if e - p == 2 {
      assert d[1] == s[p + 1];
      if p + 3 <= |s| {
        assert s[p..p + 3][2] == s[p + 2];
      }
    } else if p + 3 <= |s| {
      assert s[p..p + 3][1] == s[p + 1];
    }
  }

  /** A score token has at most three digits: a longer one, having no
      leading zero, would be at least 1000. */
  lemma TokenAtMostThree(s: string, p: nat, e: int)
    requires IsScoreToken(s, p, e)
    ensures e - p <= 3
  {
    var d := s[p..e];
    if e - p >= 4 {
      assert Pow10(3) == 1000;
      assert d[0] == s[p];
      Pow10Monotone(3, |d| - 1);
      DecimalValueLowerBound(d);
    }
  }

  lemma {:induction false} Pow10Monotone(m: nat, n: nat)
    requires m <= n
    ensures Pow10(m) <= Pow10(n)
    decreases n
  {
    if m < n {
      Pow10Monotone(m, n - 1);
    }
  }

  /** What the search finds is a score token. */
  lemma SearchFoundIsToken(s: string, from: nat)
    requires from <= |s| && Search(s, from).Some?
    ensures IsScoreToken(s, Search(s, from).value.0, Search(s, from).value.0 + Search(s, from).value.1)
  {
    MatchIsToken(s, Search(s, from).value.0);
  }

  /** The search passes over no score token: none lies between `from` and
      what it finds, and none at or after `from` when it finds nothing. */
  lemma {:induction false} SearchSkipsNoToken(s: string, from: nat)
    requires from <= |s|
    ensures Search(s, from).None? ==> forall p, e | from <= p :: !IsScoreToken(s, p, e)
    ensures Search(s, from).Some? ==> forall q, e | from <= q < Search(s, from).value.0 :: !IsScoreToken(s, q, e)
    decreases |s| - from
  {
    if MatchAt(s, from).None? && from < |s| {
      SearchSkipsNoToken(s, from + 1);
      NoTokenWithoutMatch(s, from);
      assert Search(s, from) == Search(s, from + 1);
    }
  }

  /** The search from `from` returns the leftmost score token at or after
      `from`, and finds nothing exactly when there is none. */
  lemma SearchFindsLeftmostToken(s: string, from: nat)
    requires from <= |s|
    ensures Search(s, from).None? ==> forall p, e | from <= p :: !IsScoreToken(s, p, e)
    ensures Search(s, from).Some? ==>
      IsScoreToken(s, Search(s, from).value.0, Search(s, from).value.0 + Search(s, from).value.1) &&
      forall q, e | from <= q < Search(s, from).value.0 :: !IsScoreToken(s, q, e)
  {
    SearchSkipsNoToken(s, from);
    if Search(s, from).Some? {
      SearchFoundIsToken(s, from);
    }
  }

  /** The score is the value of the leftmost score token. */
  lemma ExtractScoreIsLeftmostToken(s: string, p: int, e: int)
    requires IsScoreToken(s, p, e) && NoTokenBefore(s, p)
    ensures ExtractScore(s) == DecimalValue(s[p..e])
  {
    SearchFindsLeftmostToken(s, 0);
    MatchAtIsToken(s, p);
    var (q, n) := Search(s, 0).value;
    assert !(q < p);
    assert !(p < q);
  }

  /** Without any score token the score is 0. */
  lemma ExtractScoreWithoutToken(s: string)
    requires forall p, e :: !IsScoreToken(s, p, e)
    ensures ExtractScore(s) == 0
  {
    SearchFindsLeftmostToken(s, 0);
  }

  /** A summary of the two lemmas above in one statement: either the text
      holds no score token, or the score is the value of the leftmost one. */
  lemma ExtractScoreComesFromToken(s: string)
    ensures
      (forall p, e :: !IsScoreToken(s, p, e)) ||
      exists p, e :: IsScoreToken(s, p, e) && NoTokenBefore(s, p) && ExtractScore(s) == DecimalValue(s[p..e])
  {
    SearchSkipsNoToken(s, 0);
    if Search(s, 0).Some? {
      var (p, n) := Search(s, 0).value;
      SearchFoundIsToken(s, 0);
      assert NoTokenBefore(s, p);
      assert ExtractScore(s) == DecimalValue(s[p..p + n]);
    }
  }

  /** A standalone token gives its value. */
  lemma ExtractScoreStandalone()
    ensures ExtractScore("87") == 87
    ensures ExtractScore("100") == 100
    ensures ExtractScore("0") == 0
  {
    assert "100"[0..3] == "100";
    DecimalValueShort("100");
  }

  /** Out-of-range numbers, leading zeros and digits glued to letters give 0. */
  lemma ExtractScoreNoToken()
    ensures ExtractScore("150") == 0
    ensures ExtractScore("1000") == 0
    ensures ExtractScore("050") == 0
    ensures ExtractScore("a87") == 0
  {
    var t := "150";
    assert t[0..3] != "100" by { assert t[0..3][1] == '5'; }
    assert MatchAt(t, 0) == None;
    assert MatchAt(t, 1) == None && MatchAt(t, 2) == None && MatchAt(t, 3) == None;
    assert Search(t, 0) == None;
    var u := "1000";
    assert u[0..3] == "100";
    assert MatchAt(u, 0) == None;
    assert MatchAt(u, 1) == None && MatchAt(u, 2) == None && MatchAt(u, 3) == None && MatchAt(u, 4) == None;
    assert Search(u, 0) == None;
    var v := "050";
    assert v[0..3] != "100" by { assert v[0..3][0] == '0'; }
    assert MatchAt(v, 0) == None;
    assert Search(v, 0) == None;
  }

  /** Punctuation is a boundary. */
  lemma ExtractScorePunctuation()
    ensures ExtractScore("87/100") == 87
    ensures ExtractScore("-5") == 5
  {
    var t := "87/100";
    DecimalValueShort("87");
    assert t[0..2] == "87";
    assert MatchAt(t, 0) == Some(2);
    var u := "-5";
    DecimalValueShort("5");
    assert u[1..2] == "5";
    assert MatchAt(u, 0) == None && MatchAt(u, 1) == Some(1);
  }

  /** The leftmost token wins, not the largest or the last. */
  lemma ExtractScoreLeftmostWins()
    ensures ExtractScore("out of 100, got 85") == 100
  {
    var t := "out of 100, got 85";
    assert t[7..10] == "100";
    DecimalValueShort("100");
    assert MatchAt(t, 7) == Some(3);
    assert Search(t, 6) == Search(t, 7);
    assert Search(t, 3) == Search(t, 4) == Search(t, 5) == Search(t, 6);
    assert Search(t, 0) == Search(t, 1) == Search(t, 2) == Search(t, 3);
  }
}
