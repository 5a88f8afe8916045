/** matchPattern of internal/central/rbac.go: a greedy wildcard matcher with
    backtracking to the last '*' only.  A Go string is its bytes; each char
    here stands for one byte. */
module Glob {
  /** The meaning of a pattern: '*' stands for any run of characters. */
  predicate Matches(pattern: string, value: string)
    decreases |pattern| + |value|
  {
    if pattern == "" then value == ""
    else if pattern[0] == '*' then
      Matches(pattern[1..], value) || (value != "" && Matches(pattern, value[1..]))
    else
      value != "" && pattern[0] == value[0] && Matches(pattern[1..], value[1..])
  }

  predicate AllStars(s: string) {
    forall i | 0 <= i < |s| :: s[i] == '*'
  }

  /** No '*' in the value, except possibly as its very last character. */
  predicate StarOnlyLast(value: string) {
    forall i | 0 <= i < |value| - 1 :: value[i] != '*'
  }

  // ----- the algorithm -----------------------------------------------------

  /** Loop state: positions in pattern and value, last '*' seen (-1: none) and
      the position of the value its match currently ends at. */
  datatype Scan = Scan(p: nat, v: nat, star: int, mark: nat)

  predicate InRange(pattern: string, value: string, s: Scan) {
    && s.p <= |pattern|
    && s.mark <= s.v <= |value|
    && -1 <= s.star < s.p
    && (if s.star == -1 then s.mark == 0 else pattern[s.star] == '*')
    && s.p - s.star - 1 == s.v - s.mark
  }

  /** What was consumed since the last '*' is equal on both sides. */
  predicate Aligned(pattern: string, value: string, s: Scan)
    requires InRange(pattern, value, s)
  {
    pattern[s.star + 1..s.p] == value[s.mark..s.v]
  }

  datatype Outcome = Continue(next: Scan) | Reject

  /** One iteration of the main loop. */
  function Advance(pattern: string, value: string, s: Scan): (o: Outcome)
    requires InRange(pattern, value, s) && s.v < |value|
    ensures o.Continue? ==> InRange(pattern, value, o.next)
    ensures o.Continue? ==> Budget(pattern, value, o.next) < Budget(pattern, value, s)
  {
    if s.p < |pattern| && pattern[s.p] == value[s.v] then
      Continue(s.(p := s.p + 1, v := s.v + 1))
    else if s.p < |pattern| && pattern[s.p] == '*' then
      SweepsMonotone(|value| - s.v, |value| - s.mark, |pattern| + 1);
      Continue(Scan(s.p + 1, s.v, s.p, s.v))
    else if s.star != -1 then
      Continue(Scan(s.star + 1, s.mark + 1, s.star, s.mark + 1))
    else Reject
  }

  /** A bound on the iterations still to come: one sweep of the pattern for
      every place the last '*' can still end at, and the rest of this sweep. */
  function Budget(pattern: string, value: string, s: Scan): nat
    requires InRange(pattern, value, s)
  {
    Sweeps(|value| - s.mark, |pattern| + 1) + (|pattern| - s.p)
  }

  function Sweeps(n: nat, length: nat): nat {
    if n == 0 then 0 else length + Sweeps(n - 1, length)
  }

  lemma {:induction false} SweepsMonotone(m: nat, n: nat, length: nat)
    requires m <= n
    ensures Sweeps(m, length) <= Sweeps(n, length)
  {
    if m < n {
      SweepsMonotone(m, n - 1, length);
    }
  }

  lemma {:induction false} SweepsIsProduct(n: nat, length: nat)
    ensures Sweeps(n, length) == n * length
  {
    if n > 0 {
      SweepsIsProduct(n - 1, length);
    }
  }

  /** Running the main loop to its end, then skipping trailing stars. */
  predicate Accepts(pattern: string, value: string, s: Scan)
    requires InRange(pattern, value, s)
    decreases Budget(pattern, value, s)
  {
    if s.v == |value| then AllStars(pattern[s.p..])
    else
      match Advance(pattern, value, s)
      case Continue(next) => Accepts(pattern, value, next)
      case Reject => false
  }

  const START := Scan(0, 0, -1, 0)

  predicate Matcher(pattern: string, value: string) {
    Accepts(pattern, value, START)
  }

  /** matchPattern terminates, within (|value|+1)*(|pattern|+1) iterations; it
      accepts only what the pattern matches, and everything the pattern matches
      when no '*' occurs in the value before its last character. */
  method MatchPattern(pattern: string, value: string) returns (r: bool, ghost iterations: nat)
    ensures r == Matcher(pattern, value)
    ensures r ==> Matches(pattern, value)
    ensures StarOnlyLast(value) ==> (r <==> Matches(pattern, value))
    ensures iterations < (|value| + 1) * (|pattern| + 1)
  {
    MatcherIsSound(pattern, value);
    MatcherIsComplete(pattern, value);
    StartBudget(pattern, value);
    var p, v, star, mark := 0, 0, -1, 0;
    ghost var s := START;
    iterations := 0;
    while v < |value|
      invariant InRange(pattern, value, s)
      invariant s.p == p && s.v == v && s.star == star && s.mark == mark
      invariant Accepts(pattern, value, s) == Matcher(pattern, value)
      invariant iterations + Budget(pattern, value, s) <= Budget(pattern, value, START)
      decreases Budget(pattern, value, s)
    {
      ghost var step := Advance(pattern, value, s);
      if p < |pattern| && pattern[p] == value[v] {
        p, v := p + 1, v + 1;
      } else if p < |pattern| && pattern[p] == '*' {
        star, mark, p := p, v, p + 1;
      } else if star != -1 {
        p, mark := star + 1, mark + 1;
        v := mark;
      } else {
        return false, iterations;
      }
      s, iterations := step.next, iterations + 1;
    }
    ghost var tail := pattern[p..];
    while p < |pattern| && pattern[p] == '*'
      invariant p <= |pattern|
      invariant AllStars(pattern[p..]) == AllStars(tail)
    {
      AllStarsSplit(pattern[p..]);
      p := p + 1;
    }
    assert p < |pattern| ==> pattern[p..][0] == pattern[p];
    r := p == |pattern|;
  }

  lemma StartBudget(pattern: string, value: string)
    ensures Budget(pattern, value, START) < (|value| + 1) * (|pattern| + 1)
  {
    SweepsIsProduct(|value|, |pattern| + 1);
  }

  // ----- glob facts --------------------------------------------------------

  lemma {:induction false} AllStarsMatchEmpty(s: string)
    ensures Matches(s, "") <==> AllStars(s)
  {
    if s != "" {
      AllStarsMatchEmpty(s[1..]);
      AllStarsSplit(s);
    }
  }

  lemma AllStarsSplit(s: string)
    requires s != ""
    ensures AllStars(s) <==> s[0] == '*' && AllStars(s[1..])
  {
    if AllStars(s) {
      assert forall i | 0 <= i < |s| - 1 :: s[1..][i] == s[i + 1];
    }
    if s[0] == '*' && AllStars(s[1..]) {
      assert forall i | 1 <= i < |s| :: s[i] == s[1..][i - 1];
    }
  }

  /** Only a run of stars matches a literal '*'. */
  lemma {:induction false} OnlyStarsMatchStar(s: string)
    requires Matches(s, "*")
    ensures AllStars(s)
  {
    if s != "" {
      AllStarsSplit(s);
      AllStarsMatchEmpty(s);
      AllStarsMatchEmpty(s[1..]);
      if Matches(s[1..], "*") {
        OnlyStarsMatchStar(s[1..]);
      }
      assert "*"[1..] == "";
    }
  }

  /** A '*' in front absorbs any prefix of the value. */
  lemma {:induction false} StarAbsorbs(pattern: string, value: string, k: nat)
    requires pattern != "" && pattern[0] == '*' && k <= |value|
    requires Matches(pattern, value[k..])
    ensures Matches(pattern, value)
  {
    if k > 0 {
      assert value[k - 1..][1..] == value[k..];
      StarAbsorbs(pattern, value, k - 1);
    }
  }

  /** Conversely, what follows a leading '*' matches some suffix. */
  lemma {:induction false} StarChoosesSuffix(pattern: string, value: string) returns (k: nat)
    requires pattern != "" && pattern[0] == '*' && Matches(pattern, value)
    ensures k <= |value| && Matches(pattern[1..], value[k..])
    decreases |value|
  {
    if Matches(pattern[1..], value) {
      return 0;
    }
    var k' := StarChoosesSuffix(pattern, value[1..]);
    assert value[1..][k'..] == value[k' + 1..];
    return k' + 1;
  }

  /** A literal run matches itself and nothing else. */
  lemma {:induction false} LiteralRun(run: string, pattern: string, value: string)
    requires '*' !in run
    ensures Matches(run + pattern, value) <==> run <= value && Matches(pattern, value[|run|..])
  {
    if run == "" {
      assert run + pattern == pattern;
    } else {
      assert (run + pattern)[0] == run[0] && (run + pattern)[1..] == run[1..] + pattern;
      if value != "" {
        LiteralRun(run[1..], pattern, value[1..]);
        assert run == [run[0]] + run[1..] && value == [value[0]] + value[1..];
        if |run| <= |value| {
          assert value[1..][|run| - 1..] == value[|run|..];
        }
      }
    }
  }

  /** Consuming an equal pair of characters keeps a match, '*' included. */
  lemma {:induction false} RunOnItself(run: string, pattern: string, value: string)
    requires Matches(pattern, value)
    ensures Matches(run + pattern, run + value)
  {
    if run == "" {
      assert run + pattern == pattern && run + value == value;
    } else {
      var p, v := run + pattern, run + value;
      assert p[1..] == run[1..] + pattern && v[1..] == run[1..] + value;
      RunOnItself(run[1..], pattern, value);
      if p[0] == '*' {
        StarAbsorbsOne(p, v);
      }
    }
  }

  lemma StarAbsorbsOne(pattern: string, value: string)
    requires pattern != "" && pattern[0] == '*' && value != ""
    requires Matches(pattern[1..], value[1..])
    ensures Matches(pattern, value)
  {
    assert Matches(pattern, value[1..]);
  }

  // ----- the matcher against the meaning -----------------------------------

  /** Where matching the rest would resume: the last '*', or the beginning. */
  function Resume(s: Scan): int {
    if s.star == -1 then 0 else s.star
  }

  lemma AdvanceKeepsAligned(pattern: string, value: string, s: Scan)
    requires InRange(pattern, value, s) && Aligned(pattern, value, s) && s.v < |value|
    requires Advance(pattern, value, s).Continue?
    ensures Aligned(pattern, value, Advance(pattern, value, s).next)
  {
    if s.p < |pattern| && pattern[s.p] == value[s.v] {
      assert pattern[s.star + 1..s.p + 1] == pattern[s.star + 1..s.p] + [pattern[s.p]];
      assert value[s.mark..s.v + 1] == value[s.mark..s.v] + [value[s.v]];
    }
  }

  /** If what is left matches, so does all from the last '*' on. */
  lemma RestMatches(pattern: string, value: string, s: Scan)
    requires InRange(pattern, value, s) && Aligned(pattern, value, s)
    requires Matches(pattern[s.p..], value[s.v..])
    ensures Matches(pattern[Resume(s)..], value[s.mark..])
  {
    var run := value[s.mark..s.v];
    RunOnItself(run, pattern[s.p..], value[s.v..]);
    assert value[s.mark..] == run + value[s.v..];
    assert pattern[s.star + 1..] == run + pattern[s.p..];
    if s.star >= 0 {
      assert pattern[s.star..][1..] == pattern[s.star + 1..];
      SuffixMatchesWithStar(pattern[s.star..], value[s.mark..]);
    }
  }

  lemma {:induction false} AcceptsIsSound(pattern: string, value: string, s: Scan)
    requires InRange(pattern, value, s) && Aligned(pattern, value, s) && Accepts(pattern, value, s)
    ensures Matches(pattern[Resume(s)..], value[s.mark..])
    decreases Budget(pattern, value, s)
  {
    if s.v == |value| {
      AllStarsMatchEmpty(pattern[s.p..]);
      RestMatches(pattern, value, s);
    } else {
      var next := Advance(pattern, value, s).next;
      AdvanceKeepsAligned(pattern, value, s);
      AcceptsIsSound(pattern, value, next);
      if next.star > s.star {
        RestMatches(pattern, value, s);
      } else if next.mark > s.mark {
        LaterMatches(pattern[s.star..], value, s.mark);
      }
    }
  }

  lemma LaterMatches(pattern: string, value: string, k: nat)
    requires pattern != "" && pattern[0] == '*' && k < |value|
    requires Matches(pattern, value[k + 1..])
    ensures Matches(pattern, value[k..])
  {
    assert value[k..][1..] == value[k + 1..];
  }

  /** Under StarOnlyLast the run since the last '*' is literal, and a match from
      the last '*' on either ends the run here or lies further to the right. */
  lemma RunIsForced(pattern: string, value: string, s: Scan, r: nat) returns (k: nat)
    requires InRange(pattern, value, s)
    requires s.star + 1 <= r <= s.p && '*' !in pattern[s.star + 1..r]
    requires Matches(pattern[Resume(s)..], value[s.mark..])
    ensures s.mark + (r - s.star - 1) <= k <= |value|
    ensures Matches(pattern[r..], value[k..])
    ensures k == s.mark + (r - s.star - 1) || (s.star >= 0 && Matches(pattern[s.star..], value[s.mark..][1..]))
  {
    var literal, value' := pattern[s.star + 1..r], value[s.mark..];
    SuffixSplits(pattern, s.star + 1, r);
    if s.star >= 0 {
      var star := pattern[s.star..];
      SuffixOfSuffix(pattern, s.star, 1);
      var j := LiteralBehindStar(star, literal, pattern[r..], value');
      k := s.mark + j + |literal|;
      SuffixOfSuffix(value, s.mark, j + |literal|);
    } else {
      LiteralRun(literal, pattern[r..], value');
      k := |literal|;
    }
  }

  lemma SuffixSplits(s: string, i: nat, j: nat)
    requires i <= j <= |s|
    ensures s[i..] == s[i..j] + s[j..]
  {
  }

  lemma SuffixOfSuffix(s: string, i: nat, j: nat)
    requires i + j <= |s|
    ensures s[i..][j..] == s[i + j..]
  {
  }

  lemma LiteralBehindStar(pattern: string, literal: string, tail: string, value: string) returns (j: nat)
    requires pattern != "" && pattern[0] == '*' && pattern[1..] == literal + tail && '*' !in literal
    requires Matches(pattern, value)
    ensures j + |literal| <= |value| && Matches(tail, value[j + |literal|..])
    ensures j == 0 || Matches(pattern, value[1..])
  {
    j := StarChoosesSuffix(pattern, value);
    LiteralRun(literal, tail, value[j..]);
    assert value[j..][|literal|..] == value[j + |literal|..];
    if j > 0 {
      assert value[1..][j - 1..] == value[j..];
      SuffixMatchesWithStar(pattern, value[j..]);
      StarAbsorbs(pattern, value[1..], j - 1);
    }
  }

  lemma SuffixMatchesWithStar(pattern: string, value: string)
    requires pattern != "" && pattern[0] == '*' && Matches(pattern[1..], value)
    ensures Matches(pattern, value)
  {
  }

  /** No iteration gives up a match. */
  lemma AdvanceKeepsMatch(pattern: string, value: string, s: Scan)
    requires InRange(pattern, value, s) && Aligned(pattern, value, s) && StarOnlyLast(value) && s.v < |value|
    requires Matches(pattern[Resume(s)..], value[s.mark..])
    ensures var step := Advance(pattern, value, s);
            step.Continue? && Matches(pattern[Resume(step.next)..], value[step.next.mark..])
  {
    LiteralBefore(value, s.mark, s.v);
    var k := RunIsForced(pattern, value, s, s.p);
    if s.p < |pattern| && pattern[s.p] == value[s.v] {
    } else if s.p < |pattern| && pattern[s.p] == '*' {
      StarFromHere(pattern[s.p..], value, s.v, k);
    } else {
      assert value[s.mark..][1..] == value[s.mark + 1..];
    }
  }

  lemma LiteralBefore(value: string, i: nat, j: nat)
    requires i <= j < |value| && StarOnlyLast(value)
    ensures '*' !in value[i..j]
  {
    assert forall k | i <= k < j :: value[k] != '*';
  }

  lemma StarFromHere(pattern: string, value: string, v: nat, k: nat)
    requires pattern != "" && pattern[0] == '*' && v <= k <= |value| && Matches(pattern, value[k..])
    ensures Matches(pattern, value[v..])
  {
    assert value[v..][k - v..] == value[k..];
    StarAbsorbs(pattern, value[v..], k - v);
  }

  lemma {:induction false} AcceptsIsComplete(pattern: string, value: string, s: Scan)
    requires InRange(pattern, value, s) && Aligned(pattern, value, s) && StarOnlyLast(value)
    requires Matches(pattern[Resume(s)..], value[s.mark..])
    ensures Accepts(pattern, value, s)
    decreases Budget(pattern, value, s)
  {
    if s.v == |value| {
      EndIsReached(pattern, value, s);
    } else {
      AdvanceKeepsMatch(pattern, value, s);
      AdvanceKeepsAligned(pattern, value, s);
      AcceptsIsComplete(pattern, value, Advance(pattern, value, s).next);
    }
  }

  /** At the end of the value only stars can be left. */
  lemma EndIsReached(pattern: string, value: string, s: Scan)
    requires InRange(pattern, value, s) && Aligned(pattern, value, s) && StarOnlyLast(value) && s.v == |value|
    requires Matches(pattern[Resume(s)..], value[s.mark..])
    ensures AllStars(pattern[s.p..])
  {
    var run := value[s.mark..s.v];
    if '*' !in run {
      var k := RunIsForced(pattern, value, s, s.p);
      AllStarsMatchEmpty(pattern[s.p..]);
    } else {
      LiteralButLast(pattern, s.star + 1, s.p, value, s.mark);
      var k := RunIsForced(pattern, value, s, s.p - 1);
      OneStarIsLeft(value, s.mark, k);
      AtMostAStarIsLeft(pattern[s.p - 1..], value[k..]);
      SuffixOfSuffix(pattern, s.p - 1, 1);
    }
  }

  lemma OneStarIsLeft(value: string, i: nat, k: nat)
    requires StarOnlyLast(value) && i <= |value| && '*' in value[i..] && |value| - 1 <= k <= |value|
    ensures value[k..] == "" || value[k..] == "*"
  {
  }

  lemma LiteralButLast(s: string, i: nat, j: nat, value: string, k: nat)
    requires i < j <= |s| && k <= |value| && s[i..j] == value[k..|value|] && StarOnlyLast(value)
    ensures '*' !in s[i..j - 1]
  {
    assert j - i == |value| - k;
    assert forall n | 0 <= n < j - 1 - i :: s[i..j - 1][n] == s[i..j][n] == value[k + n];
  }

  lemma AtMostAStarIsLeft(pattern: string, value: string)
    requires pattern != "" && Matches(pattern, value) && (value == "" || value == "*")
    ensures AllStars(pattern[1..])
  {
    AllStarsMatchEmpty(pattern);
    if value == "*" {
      OnlyStarsMatchStar(pattern);
    }
    AllStarsSplit(pattern);
  }

  /** Whatever matchPattern accepts, the pattern matches. */
  lemma MatcherIsSound(pattern: string, value: string)
    ensures Matcher(pattern, value) ==> Matches(pattern, value)
  {
    if Matcher(pattern, value) {
      AcceptsIsSound(pattern, value, START);
      assert pattern[0..] == pattern && value[0..] == value;
    }
  }

  lemma MatcherIsComplete(pattern: string, value: string)
    ensures StarOnlyLast(value) && Matches(pattern, value) ==> Matcher(pattern, value)
  {
    if StarOnlyLast(value) && Matches(pattern, value) {
      assert pattern[0..] == pattern && value[0..] == value;
      AcceptsIsComplete(pattern, value, START);
    }
  }

  // ----- exactly when matcher and meaning agree ----------------------------

  /** While pattern and value are equal the matcher walks along both, taking a
      '*' it meets in both literally: a mismatch later finds no '*' to go back to. */
  lemma {:induction false} EqualPrefixForgetsStars(pattern: string, value: string, n: nat, k: nat)
    requires k <= n <= |pattern| && n < |value| && pattern[..n] == value[..n]
    requires n == |pattern| || (pattern[n] != value[n] && pattern[n] != '*')
    ensures InRange(pattern, value, Scan(k, k, -1, 0))
    ensures !Accepts(pattern, value, Scan(k, k, -1, 0))
    decreases n - k
  {
    assert pattern[..k] == pattern[..n][..k] && value[..k] == value[..n][..k];
    assert pattern[0..k] == pattern[..k] && value[0..k] == value[..k];
    if k < n {
      assert pattern[..n][k] == value[..n][k];
      EqualPrefixForgetsStars(pattern, value, n, k + 1);
    }
  }

  lemma StarMatchesAnything(value: string)
    ensures Matches("*", value)
  {
    assert "*"[1..] == "" && value[|value|..] == "";
    StarAbsorbs("*", value, |value|);
  }

  /** The matcher is right about a value under every pattern if and only if
      that value has no '*' before its last character. */
  lemma ExactForValue(value: string)
    ensures (forall pattern: string :: Matcher(pattern, value) == Matches(pattern, value))
       <==> StarOnlyLast(value)
  {
    if StarOnlyLast(value) {
      forall pattern: string
        ensures Matcher(pattern, value) == Matches(pattern, value)
      {
        MatcherIsSound(pattern, value);
        MatcherIsComplete(pattern, value);
      }
    } else {
      var i :| 0 <= i < |value| - 1 && value[i] == '*';
      var pattern := value[..i] + "*";
      StarMatchesAnything(value[i..]);
      RunOnItself(value[..i], "*", value[i..]);
      assert value == value[..i] + value[i..];
      assert pattern == value[..i + 1];
      EqualPrefixForgetsStars(pattern, value, i + 1, 0);
      assert Matcher(pattern, value) != Matches(pattern, value);
    }
  }

  /** The matcher is right about a pattern on every value if and only if the
      pattern is plain text. */
  lemma ExactForPattern(pattern: string)
    ensures (forall value: string :: Matcher(pattern, value) == Matches(pattern, value))
       <==> '*' !in pattern
  {
    if '*' !in pattern {
      forall value: string
        ensures Matcher(pattern, value) == Matches(pattern, value)
      {
        LiteralRun(pattern, "", value);
        assert pattern + "" == pattern;
        if Matches(pattern, value) {
          assert value == pattern;
          MatcherIsComplete(pattern, value);
        }
        MatcherIsSound(pattern, value);
      }
    } else {
      var value := MissedValue(pattern);
      assert Matcher(pattern, value) != Matches(pattern, value);
    }
  }

  /** A value that a pattern with a '*' matches but the matcher turns down. */
  lemma MissedValue(pattern: string) returns (value: string)
    requires '*' in pattern
    ensures Matches(pattern, value) && !Matcher(pattern, value)
  {
    var k := LastStar(pattern);
    var rest := pattern[k + 1..];
    var c := if rest != "" && rest[0] == 'a' then 'b' else 'a';
    value := pattern[..k] + ("*" + [c] + rest);
    var tail := "*" + [c] + rest;
    RunOnItself(rest, "", "");
    assert rest + "" == rest;
    assert tail[2..] == rest && pattern[k..][1..] == rest;
    SuffixMatchesWithStar(pattern[k..], rest);
    StarAbsorbs(pattern[k..], tail, 2);
    RunOnItself(pattern[..k], pattern[k..], tail);
    assert pattern == pattern[..k] + pattern[k..];
    assert pattern[..k + 1] == value[..k + 1] && value[k + 1] == c;
    EqualPrefixForgetsStars(pattern, value, k + 1, 0);
  }

  lemma {:induction false} LastStar(s: string) returns (k: nat)
    requires '*' in s
    ensures k < |s| && s[k] == '*' && '*' !in s[k + 1..]
  {
    k := |s| - 1;
    if s[k] != '*' {
      k := LastStar(s[..k]);
      assert s[k + 1..] == s[..|s| - 1][k + 1..] + [s[|s| - 1]];
    }
  }
}
