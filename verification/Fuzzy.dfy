/**
 * Fuzzy matching (packages/tui/src/fuzzy.ts).  Scores are counted in tenths of a point,
 * so that they are whole numbers.
 */
module Fuzzy {
  import opened Base
  import opened Sorting
  import opened Strings

  /** The white space of a JavaScript regular expression. */
  predicate IsSpace(c: char) {
    c in " \t\n\r" || c in [0x0B as char, 0x0C as char, 0xA0 as char, 0x1680 as char, 0x2028 as char, 0x2029 as char,
                            0x202F as char, 0x205F as char, 0x3000 as char, 0xFEFF as char]
    || 0x2000 as char <= c <= 0x200A as char
  }

  /** A match after one of these starts a word. */
  predicate IsBoundary(c: char) {
    IsSpace(c) || c in "-_./:"
  }

  /** What JavaScript's `\s` matches, by code point. */
  lemma SpacesAre(c: char)
    ensures var code := c as int;
      IsSpace(c) <==>
        || 9 <= code <= 13 || code == 32 || code == 0xA0 || code == 0x1680 || 0x2000 <= code <= 0x200A
        || code == 0x2028 || code == 0x2029 || code == 0x202F || code == 0x205F || code == 0x3000 || code == 0xFEFF
  {
  }

  /** Words of a text end at spaces and five signs, words of a query at spaces and slashes. */
  lemma BoundariesAre(c: char)
    ensures IsBoundary(c) <==> IsSpace(c) || c == '-' || c == '_' || c == '.' || c == '/' || c == ':'
    ensures IsWordChar(c) <==> !IsSpace(c) && c != '/'
  {
    hide IsSpace;
  }

  predicate WordStart(text: string, i: nat)
    requires i < |text|
  {
    i == 0 || IsBoundary(text[i-1])
  }

  // ------------------------------------------------------------------
  // The greedy scan
  // ------------------------------------------------------------------

  datatype Scan = Scan(queryIndex: nat, score: int, lastMatchIndex: int, consecutive: nat)

  const START := Scan(0, 0, -1, 0)

  /** One character of the text. */
  function Step(query: string, text: string, i: nat, s: Scan): Scan
    requires i < |text|
  {
    if s.queryIndex >= |query| || text[i] != query[s.queryIndex] then s
    else
      var consecutive := if s.lastMatchIndex == i - 1 then s.consecutive + 1 else 0;
      var run := if s.lastMatchIndex == i - 1 then -50 * consecutive
                 else if s.lastMatchIndex >= 0 then 20 * (i - s.lastMatchIndex - 1) else 0;
      Scan(s.queryIndex + 1, s.score + run - (if WordStart(text, i) then 100 else 0) + i, i, consecutive)
  }

  function ScanTo(query: string, text: string, n: nat): Scan
    requires n <= |text|
  {
    if n == 0 then START else Step(query, text, n - 1, ScanTo(query, text, n - 1))
  }

  datatype FuzzyMatch = FuzzyMatch(matches: bool, score: int)

  const NO_MATCH := FuzzyMatch(false, 0)

  function Matched(query: string, text: string): FuzzyMatch {
    if query == "" then FuzzyMatch(true, 0)
    else if |query| > |text| then NO_MATCH
    else
      var s := ScanTo(query, text, |text|);
      if s.queryIndex < |query| then NO_MATCH
      else FuzzyMatch(true, s.score - (if query == text then 1000 else 0))
  }

  lemma {:induction false} DoneStays(query: string, text: string, i: nat, n: nat)
    requires i <= n <= |text| && ScanTo(query, text, i).queryIndex >= |query|
    ensures ScanTo(query, text, n) == ScanTo(query, text, i)
  {
    if i < n { DoneStays(query, text, i, n - 1); }
  }

  /** The loop of `matchQuery`, which stops as soon as the query is used up. */
  method MatchQuery(query: string, text: string) returns (m: FuzzyMatch)
    ensures m == Matched(query, text)
  {
    if |query| == 0 { return FuzzyMatch(true, 0); }
    if |query| > |text| { return NO_MATCH; }
    var queryIndex, score, lastMatchIndex, consecutiveMatches := 0, 0, -1, 0;
    var i := 0;
    while i < |text| && queryIndex < |query|
      invariant 0 <= i <= |text| && 0 <= consecutiveMatches && 0 <= queryIndex
      invariant Scan(queryIndex, score, lastMatchIndex, consecutiveMatches) == ScanTo(query, text, i)
    {
      if text[i] == query[queryIndex] {
        if lastMatchIndex == i - 1 {
          consecutiveMatches := consecutiveMatches + 1;
          score := score - consecutiveMatches * 50;
        } else {
          consecutiveMatches := 0;
          if lastMatchIndex >= 0 { score := score + (i - lastMatchIndex - 1) * 20; }
        }
        if WordStart(text, i) { score := score - 100; }
        score := score + i;
        lastMatchIndex, queryIndex := i, queryIndex + 1;
      }
      i := i + 1;
    }
    if queryIndex >= |query| { DoneStays(query, text, i, |text|); }
    if queryIndex < |query| { return NO_MATCH; }
    if query == text { score := score - 1000; }
    m := FuzzyMatch(true, score);
  }

  // ------------------------------------------------------------------
  // Greedy decides the subsequence relation
  // ------------------------------------------------------------------

  /** The positions `e` show the query inside the text. */
  ghost predicate Embeds(query: string, text: string, e: seq<nat>) {
    && |e| == |query|
    && (forall k :: 0 <= k < |e| ==> e[k] < |text| && text[e[k]] == query[k])
    && (forall j, k :: 0 <= j < k < |e| ==> e[j] < e[k])
  }

  ghost predicate IsSubsequence(query: string, text: string) {
    exists e :: Embeds(query, text, e)
  }

  /** Any embedding is at least as late as the greedy one. */
  lemma {:induction false} GreedyIsEarliest(query: string, text: string, n: nat, e: seq<nat>)
    requires n <= |text| && Embeds(query, text, e)
    ensures var j := ScanTo(query, text, n).queryIndex; j <= |query| && (j < |query| ==> e[j] >= n)
  {
    if n > 0 { GreedyIsEarliest(query, text, n - 1, e); }
  }

  /** What the scan has used of the query is embedded in what it has seen of the text. */
  lemma {:induction false} GreedyEmbeds(query: string, text: string, n: nat) returns (e: seq<nat>)
    requires n <= |text|
    ensures var j := ScanTo(query, text, n).queryIndex;
      j <= |query| && Embeds(query[..j], text, e) && forall k :: 0 <= k < |e| ==> e[k] < n
  {
    if n == 0 {
      e := [];
    } else {
      e := GreedyEmbeds(query, text, n - 1);
      var j := ScanTo(query, text, n - 1).queryIndex;
      if j < |query| && text[n-1] == query[j] {
        assert query[..j+1] == query[..j] + [query[j]];
        e := e + [n - 1];
      }
    }
  }

  lemma {:induction false} EmbeddingFits(query: string, text: string, e: seq<nat>, k: nat)
    requires Embeds(query, text, e) && k < |e|
    ensures k <= e[k]
  {
    if k > 0 { EmbeddingFits(query, text, e, k - 1); }
  }

  /** The greedy scan matches exactly the subsequences. */
  lemma GreedyDecides(query: string, text: string)
    ensures Matched(query, text).matches <==> IsSubsequence(query, text)
  {
    if query == "" {
      assert Embeds(query, text, []);
    } else if Matched(query, text).matches {
      var e := GreedyEmbeds(query, text, |text|);
      assert query[..|query|] == query;
      assert Embeds(query, text, e);
    } else if IsSubsequence(query, text) {
      var e :| Embeds(query, text, e);
      EmbeddingFits(query, text, e, |query| - 1);
      GreedyIsEarliest(query, text, |text|, e);
    }
  }

  // ------------------------------------------------------------------
  // The score
  // ------------------------------------------------------------------

  /** Ten times 5n(n+1)/2 + 10n. */
  function Reward(n: nat): int {
    25 * n * (n + 1) + 100 * n
  }

  lemma RewardStep(n: nat)
    ensures Reward(n + 1) == Reward(n) + 50 * (n + 1) + 100
  {
  }

  /** One match earns at most the run's reward and a word start. */
  lemma StepBound(query: string, text: string, i: nat, s: Scan)
    requires i < |text| && s.lastMatchIndex < i
    ensures var s' := Step(query, text, i, s);
      && s'.lastMatchIndex < i + 1
      && (s' == s || (s'.queryIndex == s.queryIndex + 1 && s'.consecutive <= s.consecutive + 1 &&
                      s'.score >= s.score - 50 * (s.consecutive + 1) - 100))
  {
  }

  lemma {:induction false} ScanBound(query: string, text: string, n: nat)
    requires n <= |text|
    ensures var s := ScanTo(query, text, n);
      s.consecutive <= s.queryIndex && s.lastMatchIndex < n && s.score >= -Reward(s.queryIndex)
  {
    if n > 0 {
      ScanBound(query, text, n - 1);
      var s := ScanTo(query, text, n - 1);
      StepBound(query, text, n - 1, s);
      RewardStep(s.queryIndex);
      hide Step, Reward;
    }
  }

  /** A score is never below minus (5n(n+1)/2 + 10n + 100) points for a query of length n. */
  lemma ScoreBound(query: string, text: string)
    ensures Matched(query, text).score >= -(Reward(|query|) + 1000)
  {
    if query != "" && Matched(query, text).matches {
      ScanBound(query, text, |text|);
      ScanWithin(query, text, |text|);
    }
  }

  lemma {:induction false} ScanWithin(query: string, text: string, n: nat)
    requires n <= |text|
    ensures ScanTo(query, text, n).queryIndex <= |query|
  {
    if n > 0 { ScanWithin(query, text, n - 1); }
  }

  /** How many matches in a row end here; a first match at the very start of the text counts as one. */
  function RunLength(e: seq<nat>, k: nat): nat
    requires k < |e|
  {
    if k == 0 then (if e[0] == 0 then 1 else 0)
    else if e[k] == e[k-1] + 1 then RunLength(e, k - 1) + 1
    else 0
  }

  /**
   * What one matched character adds, in tenths: a reward that grows along a run or a
   * penalty for the gap before it, a reward for starting a word, a penalty for its position.
   */
  function MatchScore(text: string, e: seq<nat>, k: nat): int
    requires k < |e| && e[k] < |text|
  {
    var at: int, before: int := e[k], if k > 0 then e[k-1] else 0;
    (if RunLength(e, k) > 0 then -50 * RunLength(e, k) else if k > 0 then 20 * (at - before - 1) else 0) +
    (if e[k] == 0 || IsBoundary(text[e[k]-1]) then -100 else 0) + at
  }

  function EmbeddingScore(text: string, e: seq<nat>): int
    requires forall k :: 0 <= k < |e| ==> e[k] < |text|
  {
    if e == [] then 0
    else EmbeddingScore(text, e[..|e|-1]) + MatchScore(text, e, |e| - 1)
  }

  lemma {:induction false} RunOfPrefix(e: seq<nat>, last: nat, k: nat)
    requires k < |e|
    ensures RunLength(e + [last], k) == RunLength(e, k)
  {
    if k > 0 { RunOfPrefix(e, last, k - 1); }
  }

  /** The scan is at the embedding's last match, in its run. */
  ghost predicate ScanIs(text: string, s: Scan, e: seq<nat>)
    requires forall k :: 0 <= k < |e| ==> e[k] < |text|
  {
    && s.queryIndex == |e| && s.score == EmbeddingScore(text, e)
    && s.lastMatchIndex == (if e == [] then -1 else e[|e|-1])
    && s.consecutive == (if e == [] then 0 else RunLength(e, |e| - 1))
  }

  lemma ScanMore(query: string, text: string, i: nat, s: Scan, e: seq<nat>)
    requires i < |text| && (forall k :: 0 <= k < |e| ==> e[k] < i)
    requires ScanIs(text, s, e) && s.queryIndex < |query| && text[i] == query[s.queryIndex]
    ensures ScanIs(text, Step(query, text, i, s), e + [i])
  {
    var e' := e + [i];
    assert e'[..|e|] == e;
    if e != [] { RunOfPrefix(e, i, |e| - 1); }
  }

  /** What the scan has seen, as the embedding it has found. */
  lemma {:induction false} ScanFinds(query: string, text: string, n: nat) returns (e: seq<nat>)
    requires n <= |text|
    ensures |e| <= |query| && (forall k :: 0 <= k < |e| ==> e[k] < n) && ScanIs(text, ScanTo(query, text, n), e)
    ensures Embeds(query[..|e|], text, e)
    ensures forall k :: 0 <= k < |e| ==> ScanTo(query, text, e[k]).queryIndex == k
  {
    hide ScanIs, Embeds, Step, ScanTo, EmbeddingScore;
    if n == 0 {
      e := [];
      ScanStarts(query, text);
    } else {
      e := ScanFinds(query, text, n - 1);
      var s := ScanTo(query, text, n - 1);
      ScanAt(text, s, e);
      ScanToStep(query, text, n);
      StepStays(query, text, n - 1, s);
      if s.queryIndex < |query| && text[n-1] == query[s.queryIndex] {
        ScanMore(query, text, n - 1, s, e);
        EmbedsMore(query, text, e, n - 1);
        e := e + [n - 1];
      }
    }
  }

  lemma ScanStarts(query: string, text: string)
    ensures ScanIs(text, ScanTo(query, text, 0), []) && Embeds(query[..0], text, [])
  {
  }

  lemma ScanToStep(query: string, text: string, n: nat)
    requires 0 < n <= |text|
    ensures ScanTo(query, text, n) == Step(query, text, n - 1, ScanTo(query, text, n - 1))
  {
  }

  lemma StepStays(query: string, text: string, i: nat, s: Scan)
    requires i < |text|
    ensures s.queryIndex >= |query| || text[i] != query[s.queryIndex] ==> Step(query, text, i, s) == s
  {
  }

  lemma EmbedsMore(query: string, text: string, e: seq<nat>, i: nat)
    requires |e| < |query| && Embeds(query[..|e|], text, e) && i < |text| && text[i] == query[|e|]
    requires forall k :: 0 <= k < |e| ==> e[k] < i
    ensures Embeds(query[..|e|+1], text, e + [i])
  {
    assert query[..|e|+1] == query[..|e|] + [query[|e|]];
  }

  lemma ScanAt(text: string, s: Scan, e: seq<nat>)
    requires (forall k :: 0 <= k < |e| ==> e[k] < |text|) && ScanIs(text, s, e)
    ensures s.queryIndex == |e|
  {
  }

  /**
   * A match is scored by the earliest embedding of the query: no other places any of its
   * characters before it.  An exact match gets a hundred points more.
   */
  lemma ScoreOfEarliest(query: string, text: string) returns (e: seq<nat>)
    requires query != "" && IsSubsequence(query, text)
    ensures Embeds(query, text, e)
    ensures forall other, k :: Embeds(query, text, other) && 0 <= k < |query| ==> e[k] <= other[k]
    ensures Matched(query, text) ==
            FuzzyMatch(true, EmbeddingScore(text, e) - (if query == text then 1000 else 0))
  {
    GreedyDecides(query, text);
    e := ScanFinds(query, text, |text|);
    ScanAt(text, ScanTo(query, text, |text|), e);
    assert query[..|query|] == query;
    forall other, k | Embeds(query, text, other) && 0 <= k < |query| ensures e[k] <= other[k] {
      GreedyIsEarliest(query, text, e[k], other);
    }
  }

  // ------------------------------------------------------------------
  // Swapping letters and digits
  // ------------------------------------------------------------------

  /** Two non-empty parts of the two kinds, exchanged; empty when there are none. */
  function SwapParts(first: char -> bool, second: char -> bool, s: string): string {
    var k := Leading(first, s);
    if 0 < k < |s| && All(second, s[k..]) then s[k..] + s[..k] else ""
  }

  function Swapped(s: string): string {
    var alphaNumeric := SwapParts(IsLetter, IsDigit, s);
    if alphaNumeric != "" then alphaNumeric else SwapParts(IsDigit, IsLetter, s)
  }

  /** `t` is `s` with its letters and digits exchanged. */
  ghost predicate IsSwap(s: string, t: string) {
    exists k: nat :: IsSwapAt(s, t, k)
  }

  predicate IsSwapAt(s: string, t: string, k: nat) {
    && 0 < k < |s| && t == s[k..] + s[..k]
    && ((All(IsLetter, s[..k]) && All(IsDigit, s[k..])) || (All(IsDigit, s[..k]) && All(IsLetter, s[k..])))
  }

  lemma PartsUnique(first: char -> bool, second: char -> bool, s: string, k: nat)
    requires forall c :: !(first(c) && second(c))
    requires 0 < k < |s| && All(first, s[..k]) && All(second, s[k..])
    ensures Leading(first, s) == k && SwapParts(first, second, s) == s[k..] + s[..k]
  {
    assert s[k..][0] == s[k];
    LeadingIs(first, s, k);
  }

  /** The computed swap is the only one. */
  lemma SwappedIsTheSwap(s: string, t: string)
    ensures IsSwap(s, t) <==> t != "" && t == Swapped(s)
  {
    if IsSwap(s, t) {
      var k: nat :| IsSwapAt(s, t, k);
      if All(IsLetter, s[..k]) && All(IsDigit, s[k..]) {
        PartsUnique(IsLetter, IsDigit, s, k);
      } else {
        PartsUnique(IsDigit, IsLetter, s, k);
        assert s[..k][0] == s[0];
      }
    }
    if t != "" && t == Swapped(s) {
      var k := if SwapParts(IsLetter, IsDigit, s) != "" then Leading(IsLetter, s) else Leading(IsDigit, s);
      assert IsSwapAt(s, t, k);
    }
  }

  /** `fuzzyMatch` on lower-cased texts. */
  function FuzzyMatched(query: string, text: string): FuzzyMatch {
    var primary := Matched(query, text);
    var swapped := Swapped(query);
    if primary.matches || swapped == "" || !Matched(swapped, text).matches then primary
    else FuzzyMatch(true, Matched(swapped, text).score + 50)
  }

  method Match(lower: string -> string, query: string, text: string) returns (m: FuzzyMatch)
    ensures m == FuzzyMatched(lower(query), lower(text))
  {
    var queryLower, textLower := lower(query), lower(text);
    var primaryMatch := MatchQuery(queryLower, textLower);
    if primaryMatch.matches { return primaryMatch; }
    var swappedQuery := Swapped(queryLower);
    if swappedQuery == "" { return primaryMatch; }
    var swappedMatch := MatchQuery(swappedQuery, textLower);
    if !swappedMatch.matches { return primaryMatch; }
    m := FuzzyMatch(true, swappedMatch.score + 50);
  }

  /** A text matches iff the query, or its letters and digits exchanged, is a subsequence of it. */
  lemma FuzzyDecides(query: string, text: string)
    ensures FuzzyMatched(query, text).matches <==>
              IsSubsequence(query, text) || exists t :: IsSwap(query, t) && IsSubsequence(t, text)
  {
    GreedyDecides(query, text);
    var t := Swapped(query);
    GreedyDecides(t, text);
    SwappedIsTheSwap(query, t);
    forall u | IsSwap(query, u) ensures u == t { SwappedIsTheSwap(query, u); }
  }

  /** The query's own match counts; only without one its swap does, five points worse. */
  lemma SwapIsWorse(query: string, text: string, t: string)
    ensures IsSubsequence(query, text) ==> FuzzyMatched(query, text) == Matched(query, text)
    ensures !IsSubsequence(query, text) && IsSwap(query, t) && IsSubsequence(t, text) ==>
        FuzzyMatched(query, text) == FuzzyMatch(true, Matched(t, text).score + 50)
  {
    GreedyDecides(query, text);
    GreedyDecides(t, text);
    SwappedIsTheSwap(query, t);
    hide Matched, Swapped;
  }

  // ------------------------------------------------------------------
  // Filtering
  // ------------------------------------------------------------------

  predicate IsWordChar(c: char) {
    !IsSpace(c) && c != '/'
  }

  /** The query cut at white space and slashes, without empty tokens. */
  function Tokens(query: string): seq<string>
    decreases |query|
  {
    var n := Leading(IsWordChar, query);
    if n > 0 then [query[..n]] + Tokens(query[n..])
    else if query == "" then []
    else Tokens(query[1..])
  }

  function Joined(tokens: seq<string>): string {
    if tokens == [] then "" else tokens[0] + Joined(tokens[1..])
  }

  function WordChars(s: string): string {
    if s == "" then "" else (if IsWordChar(s[0]) then [s[0]] else "") + WordChars(s[1..])
  }

  lemma {:induction false} WordCharsOfPrefix(s: string, n: nat)
    requires n <= |s| && All(IsWordChar, s[..n])
    ensures WordChars(s) == s[..n] + WordChars(s[n..])
  {
    hide IsWordChar;
    if n > 0 {
      var rest := s[1..];
      assert s[..n] == [s[0]] + rest[..n-1] && rest[n-1..] == s[n..];
      assert s[..n][1..] == rest[..n-1];
      WordCharsOfPrefix(rest, n - 1);
      assert s[..n][0] == s[0];
    }
  }

  /** Tokens are non-empty words, and together they are the query without its separators. */
  lemma {:induction false} TokensAreTheWords(query: string)
    ensures forall k :: 0 <= k < |Tokens(query)| ==> Tokens(query)[k] != "" && All(IsWordChar, Tokens(query)[k])
    ensures Joined(Tokens(query)) == WordChars(query)
    decreases |query|
  {
    var n := Leading(IsWordChar, query);
    if n > 0 {
      TokensAreTheWords(query[n..]);
      WordCharsOfPrefix(query, n);
      assert Tokens(query)[1..] == Tokens(query[n..]);
    } else if query != "" {
      TokensAreTheWords(query[1..]);
    }
  }

  /** Tokens are whole words: a word is one token, and separators only separate. */
  lemma {:induction false} TokensOfParts(word: string, separator: char, rest: string)
    requires All(IsWordChar, word) && !IsWordChar(separator)
    ensures Tokens(word) == if word == "" then [] else [word]
    ensures Tokens(word + [separator] + rest) == Tokens(word) + Tokens(rest)
  {
    var text := word + [separator] + rest;
    assert word[..|word|] == word && text[..|word|] == word && text[|word|] == separator;
    LeadingIs(IsWordChar, word, |word|);
    LeadingIs(IsWordChar, text, |word|);
    assert text[|word|..] == [separator] + rest && ([separator] + rest)[1..] == rest;
    assert ([separator] + rest)[..0] == "";
    LeadingIs(IsWordChar, [separator] + rest, 0);
    assert Tokens("") == [];
    hide IsWordChar;
  }

  /** Every token matches the text. */
  predicate AllTokensMatch(lower: string -> string, tokens: seq<string>, text: string) {
    tokens == [] ||
    (AllTokensMatch(lower, tokens[..|tokens|-1], text) && FuzzyMatched(lower(tokens[|tokens|-1]), lower(text)).matches)
  }

  function TotalScore(lower: string -> string, tokens: seq<string>, text: string): int {
    if tokens == [] then 0
    else TotalScore(lower, tokens[..|tokens|-1], text) + FuzzyMatched(lower(tokens[|tokens|-1]), lower(text)).score
  }

  /** A text matches when each of its tokens does, and scores are added up. */
  lemma {:induction false} TokensTogether(lower: string -> string, a: seq<string>, b: seq<string>, text: string)
    ensures AllTokensMatch(lower, a, text) <==>
        forall k :: 0 <= k < |a| ==> FuzzyMatched(lower(a[k]), lower(text)).matches
    ensures TotalScore(lower, a + b, text) == TotalScore(lower, a, text) + TotalScore(lower, b, text)
    ensures |b| == 1 ==> TotalScore(lower, b, text) == FuzzyMatched(lower(b[0]), lower(text)).score
    decreases |a| + |b|
  {
    hide FuzzyMatched;
    if a != [] { TokensTogether(lower, a[..|a|-1], [], text); }
    if b == [] {
      assert a + b == a;
    } else {
      TokensTogether(lower, a, b[..|b|-1], text);
      assert (a + b)[..|a + b|-1] == a + b[..|b|-1];
      assert TotalScore(lower, [], text) == 0;
    }
  }

  lemma OneMoreToken(lower: string -> string, tokens: seq<string>, text: string, i: nat)
    requires i < |tokens|
    ensures var m := FuzzyMatched(lower(tokens[i]), lower(text));
      && (AllTokensMatch(lower, tokens[..i+1], text) <==> AllTokensMatch(lower, tokens[..i], text) && m.matches)
      && TotalScore(lower, tokens[..i+1], text) == TotalScore(lower, tokens[..i], text) + m.score
  {
    hide FuzzyMatched;
    assert tokens[..i+1][..i] == tokens[..i];
  }

  lemma {:induction false} OneMissing(lower: string -> string, tokens: seq<string>, text: string, i: nat)
    requires i <= |tokens| && !AllTokensMatch(lower, tokens[..i], text)
    ensures !AllTokensMatch(lower, tokens, text)
    decreases |tokens| - i
  {
    hide FuzzyMatched;
    if i < |tokens| {
      OneMoreToken(lower, tokens, text, i);
      OneMissing(lower, tokens, text, i + 1);
    } else {
      assert tokens[..i] == tokens;
    }
  }

  /** The loop over the tokens of one item, which stops at the first that does not match. */
  method ScoreTokens(lower: string -> string, tokens: seq<string>, text: string)
    returns (allMatch: bool, totalScore: int)
    ensures allMatch <==> AllTokensMatch(lower, tokens, text)
    ensures allMatch ==> totalScore == TotalScore(lower, tokens, text)
  {
    hide FuzzyMatched;
    allMatch, totalScore := true, 0;
    var i := 0;
    while i < |tokens| && allMatch
      invariant 0 <= i <= |tokens|
      invariant allMatch <==> AllTokensMatch(lower, tokens[..i], text)
      invariant allMatch ==> totalScore == TotalScore(lower, tokens[..i], text)
    {
      OneMoreToken(lower, tokens, text, i);
      var m := Match(lower, tokens[i], text);
      if m.matches { totalScore := totalScore + m.score; } else { allMatch := false; }
      i := i + 1;
    }
    if allMatch { assert tokens[..i] == tokens; } else { OneMissing(lower, tokens, text, i); }
  }

  datatype Scored<T> = Scored(item: T, totalScore: int)

  function ScoreOf<T>(r: Scored<T>): int { r.totalScore }

  /** The items that match, with their scores, in their original order. */
  function Survivors<T>(lower: string -> string, items: seq<T>, text: T -> string,
      tokens: seq<string>): seq<Scored<T>> {
    if items == [] then []
    else
      var last := items[|items|-1];
      Survivors(lower, items[..|items|-1], text, tokens) +
      (if AllTokensMatch(lower, tokens, text(last)) then [Scored(last, TotalScore(lower, tokens, text(last)))] else [])
  }

  function ItemsOf<T>(results: seq<Scored<T>>): seq<T> {
    seq(|results|, i requires 0 <= i < |results| => results[i].item)
  }

  /**
   * Without tokens all items; otherwise exactly the items that every token matches,
   * sorted stably by total score, best first.
   */
  method FuzzyFilter<T>(lower: string -> string, items: seq<T>, query: string, text: T -> string)
    returns (filtered: seq<T>)
    ensures filtered == if Tokens(query) == [] then items
                        else ItemsOf(SortBy(ScoreOf<T>, Survivors(lower, items, text, Tokens(query))))
  {
    hide AllTokensMatch, TotalScore, SortBy;
    var tokens := Tokens(query);
    if tokens == [] { return items; }
    var results: seq<Scored<T>> := [];
    for i := 0 to |items|
      invariant results == Survivors(lower, items[..i], text, tokens)
    {
      assert items[..i+1][..i] == items[..i];
      var allMatch, totalScore := ScoreTokens(lower, tokens, text(items[i]));
      if allMatch {
        results := results + [Scored(items[i], totalScore)];
      }
    }
    assert items[..|items|] == items;
    filtered := ItemsOf(SortBy(ScoreOf<T>, results));
  }

  /** What that list is: the survivors, none before one with a better score, ties in their original order. */
  lemma BestFirst<T>(survivors: seq<Scored<T>>, i: nat, j: nat, score: int)
    requires i < j < |SortBy(ScoreOf<T>, survivors)|
    ensures var sorted := SortBy(ScoreOf<T>, survivors);
      && sorted[i].totalScore <= sorted[j].totalScore && multiset(sorted) == multiset(survivors)
      && WithKey(ScoreOf<T>, sorted, score) == WithKey(ScoreOf<T>, survivors, score)
  {
    hide SortBy, WithKey;
    SortByIsStableSort(ScoreOf<T>, survivors);
    var sorted := SortBy(ScoreOf<T>, survivors);
    assert ScoreOf(sorted[i]) <= ScoreOf(sorted[j]);
  }

  /** Exactly the items that every token matches survive, each with the sum of its token scores. */
  lemma {:induction false} SurvivorsMatch<T>(lower: string -> string, items: seq<T>, text: T -> string,
      tokens: seq<string>, item: T)
    ensures item in ItemsOf(Survivors(lower, items, text, tokens)) <==>
        item in items && AllTokensMatch(lower, tokens, text(item))
    ensures forall r :: r in Survivors(lower, items, text, tokens) ==>
        r.totalScore == TotalScore(lower, tokens, text(r.item))
  {
    hide AllTokensMatch, TotalScore;
    if items != [] {
      var init, last := items[..|items|-1], items[|items|-1];
      SurvivorsMatch(lower, init, text, tokens, item);
      assert items == init + [last];
      var front, back := Survivors(lower, init, text, tokens), Survivors(lower, items, text, tokens);
      if back != front {
        assert back == front + [back[|front|]];
        assert ItemsOf(back) == ItemsOf(front) + [last];
      }
    }
  }

  /** Survivors keep the order of the items. */
  lemma {:induction false} SurvivorsOfParts<T>(lower: string -> string, a: seq<T>, b: seq<T>, text: T -> string,
      tokens: seq<string>)
    ensures Survivors(lower, a + b, text, tokens) ==
            Survivors(lower, a, text, tokens) + Survivors(lower, b, text, tokens)
  {
    hide AllTokensMatch, TotalScore;
    if b == [] {
      assert a + b == a;
    } else {
      SurvivorsOfParts(lower, a, b[..|b|-1], text, tokens);
      assert (a + b)[..|a + b|-1] == a + b[..|b|-1];
    }
  }
}
