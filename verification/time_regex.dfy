/**
 * The two regular expressions `last\s+(\d+)\s+days` and `last\s+(\d+)\s+weeks`
 * of the time-filter table, and Python's `re.search` with them.
 *
 * `\s` and `\d` are disjoint classes, so at a given start position a match can
 * only take the whole run of spaces, the whole run of digits and the whole
 * following run of spaces; the matcher below is therefore greedy and never
 * backtracks. `RegexMatch` states the language of the expression directly
 * (some split of the text into the pieces), and `MatchAtIsRegexMatch` proves
 * the two agree, including which digits the group captures.
 */
module TimeRegex {
  import opened Wrappers
  import opened Strings

  /** The unit word that closes the expression. */
  datatype Unit = Days | Weeks

  function Word(u: Unit): string {
    match u
    case Days => "days"
    case Weeks => "weeks"
  }

  /** End of the longest run of `inClass` characters of `s` starting at `i`. */
  function RunEnd(s: string, i: nat, inClass: char -> bool): (j: nat)
    requires i <= |s|
    ensures i <= j <= |s|
    ensures forall k :: i <= k < j ==> inClass(s[k])
    ensures j == |s| || !inClass(s[j])
    decreases |s| - i
  {
    if i < |s| && inClass(s[i]) then RunEnd(s, i + 1, inClass) else i
  }

  /** A run that stops where the class stops is the longest run. */
  lemma RunEndIsUnique(s: string, i: nat, j: nat, inClass: char -> bool)
    requires i <= j <= |s|
    requires forall k :: i <= k < j ==> inClass(s[k])
    requires j == |s| || !inClass(s[j])
    ensures RunEnd(s, i, inClass) == j
  {
  }

  /** The greedy matcher anchored at position `p`: the captured digits, or None. */
  function MatchAt(s: string, p: nat, u: Unit): Option<string> {
    if p + 4 <= |s| && s[p..p + 4] == "last" then
      var a := RunEnd(s, p + 4, IsSpace);
      var b := RunEnd(s, a, IsDigit);
      var c := RunEnd(s, b, IsSpace);
      if p + 4 < a < b < c && IsPrefix(Word(u), s[c..]) then Some(s[a..b]) else None
    else None
  }

  /**
   * `s` splits at `p` as `last`, spaces up to `a`, digits up to `b`, spaces up
   * to `c`, then the unit word (anything may follow it).
   */
  ghost predicate SplitAt(s: string, p: int, a: int, b: int, c: int, u: Unit) {
    && 0 <= p && p + 4 < a < b < c && c + |Word(u)| <= |s|
    && s[p..p + 4] == "last"
    && AllSpaces(s[p + 4..a])
    && AllDigits(s[a..b])
    && AllSpaces(s[b..c])
    && s[c..c + |Word(u)|] == Word(u)
  }

  /** The expression matches at `p`, with `n` as the text of its group. */
  ghost predicate RegexMatch(s: string, p: int, u: Unit, n: string) {
    exists a, b, c :: SplitAt(s, p, a, b, c, u) && n == s[a..b]
  }

  /** The expression matches at `p` (whatever it captures). */
  ghost predicate MatchesAt(s: string, p: int, u: Unit) {
    exists a, b, c :: SplitAt(s, p, a, b, c, u)
  }

  /** Where the greedy matcher succeeds, its three run ends split the text. */
  lemma MatchAtSound(s: string, p: nat, u: Unit)
    requires MatchAt(s, p, u).Some?
    ensures RegexMatch(s, p, u, MatchAt(s, p, u).value)
  {
    var w := Word(u);
    var a := RunEnd(s, p + 4, IsSpace);
    var b := RunEnd(s, a, IsDigit);
    var c := RunEnd(s, b, IsSpace);
    assert s[c..][..|w|] == s[c..c + |w|];
    assert SplitAt(s, p, a, b, c, u);
  }

  /** Every split of the text at `p` is the one the greedy matcher finds. */
  lemma MatchAtComplete(s: string, p: nat, u: Unit, a: int, b: int, c: int)
    requires SplitAt(s, p, a, b, c, u)
    ensures MatchAt(s, p, u) == Some(s[a..b])
  {
    var w := Word(u);
    assert forall k :: p + 4 <= k < a ==> IsSpace(s[k]) by {
      forall k | p + 4 <= k < a ensures IsSpace(s[k]) { assert s[p + 4..a][k - (p + 4)] == s[k]; }
    }
    assert IsDigit(s[a]) by { assert s[a..b][0] == s[a]; }
    RunEndIsUnique(s, p + 4, a, IsSpace);
    assert forall k :: a <= k < b ==> IsDigit(s[k]) by {
      forall k | a <= k < b ensures IsDigit(s[k]) { assert s[a..b][k - a] == s[k]; }
    }
    assert IsSpace(s[b]) by { assert s[b..c][0] == s[b]; }
    RunEndIsUnique(s, a, b, IsDigit);
    assert forall k :: b <= k < c ==> IsSpace(s[k]) by {
      forall k | b <= k < c ensures IsSpace(s[k]) { assert s[b..c][k - b] == s[k]; }
    }
    assert s[c] == w[0] by { assert s[c..c + |w|][0] == s[c]; }
    RunEndIsUnique(s, b, c, IsSpace);
    assert s[c..][..|w|] == s[c..c + |w|];
  }

  /**
   * The greedy matcher agrees with the language of the expression: it
   * succeeds exactly where some split exists, and it captures exactly the
   * group text of every such split (so the capture is unique).
   */
  lemma MatchAtIsRegexMatch(s: string, p: nat, u: Unit)
    ensures MatchAt(s, p, u).Some? <==> MatchesAt(s, p, u)
    ensures forall n :: RegexMatch(s, p, u, n) <==> MatchAt(s, p, u) == Some(n)
  {
    if MatchAt(s, p, u).Some? {
      MatchAtSound(s, p, u);
    }
    forall a, b, c | SplitAt(s, p, a, b, c, u)
      ensures MatchAt(s, p, u) == Some(s[a..b])
    {
      MatchAtComplete(s, p, u, a, b, c);
    }
  }

  /**
   * `re.search` from start position `p` on: the capture of the first start
   * position, trying `p`, `p + 1`, ... up to `|s|`, at which the matcher succeeds.
   */
  function SearchFrom(s: string, u: Unit, p: nat): Option<string>
    decreases |s| + 1 - p
  {
    if p > |s| then None
    else if MatchAt(s, p, u).Some? then MatchAt(s, p, u)
    else SearchFrom(s, u, p + 1)
  }

  /** `re.search(pattern, s)` for the pattern with unit `u`: the group of the leftmost match. */
  function Search(s: string, u: Unit): Option<string> {
    SearchFrom(s, u, 0)
  }

  /** The scan from `p` finds nothing exactly when the matcher fails at every position from `p` on. */
  lemma {:induction false} SearchFromNone(s: string, u: Unit, p: nat)
    ensures SearchFrom(s, u, p).None? <==> forall q :: p <= q <= |s| ==> MatchAt(s, q, u).None?
    decreases |s| + 1 - p
  {
    if p <= |s| && MatchAt(s, p, u).None? {
      SearchFromNone(s, u, p + 1);
    }
  }

  /** The matcher captures `n` at `k`, at or after `p`, and fails at every position from `p` to `k`. */
  ghost predicate FirstHitFrom(s: string, u: Unit, p: nat, k: nat, n: string) {
    p <= k <= |s| && MatchAt(s, k, u) == Some(n) && forall q :: p <= q < k ==> MatchAt(s, q, u).None?
  }

  /** The scan from `p` returns `n` exactly when `n` is captured at the first successful position from `p` on. */
  lemma {:induction false} SearchFromFirst(s: string, u: Unit, p: nat, n: string)
    ensures SearchFrom(s, u, p) == Some(n) <==> exists k :: FirstHitFrom(s, u, p, k, n)
    decreases |s| + 1 - p
  {
    if p > |s| {
      return;
    }
    if MatchAt(s, p, u).Some? {
      if SearchFrom(s, u, p) == Some(n) {
        assert FirstHitFrom(s, u, p, p, n);
      }
      if k :| FirstHitFrom(s, u, p, k, n) {
        assert k == p;
      }
    } else {
      SearchFromFirst(s, u, p + 1, n);
      if SearchFrom(s, u, p) == Some(n) {
        var k :| FirstHitFrom(s, u, p + 1, k, n);
        assert FirstHitFrom(s, u, p, k, n);
      }
      if k :| FirstHitFrom(s, u, p, k, n) {
        assert FirstHitFrom(s, u, p + 1, k, n);
      }
    }
  }

  /** The expression matches at `p`, capturing `n`, and at no earlier position. */
  ghost predicate LeftmostMatch(s: string, u: Unit, p: int, n: string) {
    0 <= p <= |s| && RegexMatch(s, p, u, n) && forall q :: 0 <= q < p ==> !MatchesAt(s, q, u)
  }

  /** `Search` finds nothing exactly when the expression matches nowhere in `s`. */
  lemma SearchNone(s: string, u: Unit)
    ensures Search(s, u).None? <==> forall p :: 0 <= p <= |s| ==> !MatchesAt(s, p, u)
  {
    SearchFromNone(s, u, 0);
    forall p | 0 <= p <= |s| ensures MatchAt(s, p, u).None? <==> !MatchesAt(s, p, u) {
      MatchAtIsRegexMatch(s, p, u);
    }
  }

  /** The first successful position of the matcher is the leftmost match of the expression. */
  lemma FirstHitIsLeftmost(s: string, u: Unit, k: nat, n: string)
    requires FirstHitFrom(s, u, 0, k, n)
    ensures LeftmostMatch(s, u, k, n)
  {
    MatchAtIsRegexMatch(s, k, u);
    forall q | 0 <= q < k ensures !MatchesAt(s, q, u) {
      MatchAtIsRegexMatch(s, q, u);
    }
  }

  /** The leftmost match of the expression is the first successful position of the matcher. */
  lemma LeftmostIsFirstHit(s: string, u: Unit, p: nat, n: string)
    requires LeftmostMatch(s, u, p, n)
    ensures FirstHitFrom(s, u, 0, p, n)
  {
    MatchAtIsRegexMatch(s, p, u);
    forall q | 0 <= q < p ensures MatchAt(s, q, u).None? {
      MatchAtIsRegexMatch(s, q, u);
    }
  }

  /** `Search` returns the group of the leftmost match, and only that. */
  lemma SearchIsLeftmost(s: string, u: Unit, n: string)
    ensures Search(s, u) == Some(n) <==> exists p :: LeftmostMatch(s, u, p, n)
  {
    SearchFromFirst(s, u, 0, n);
    if Search(s, u) == Some(n) {
      var k: nat :| FirstHitFrom(s, u, 0, k, n);
      FirstHitIsLeftmost(s, u, k, n);
    }
    if p :| LeftmostMatch(s, u, p, n) {
      LeftmostIsFirstHit(s, u, p, n);
    }
  }

  /** Whatever `Search` captures is a non-empty run of digits taken from `s`. */
  lemma SearchCapturesDigits(s: string, u: Unit)
    requires Search(s, u).Some?
    ensures |Search(s, u).value| > 0 && AllDigits(Search(s, u).value)
  {
    var n := Search(s, u).value;
    SearchFromFirst(s, u, 0, n);
    var k: nat :| FirstHitFrom(s, u, 0, k, n);
    MatchAtSound(s, k, u);
  }
}
