/**
 * `extractWeeks`: the plan duration read from the text of a payment screenshot. Three regular
 * expressions are tried in a fixed order, `(\d+)\s*week`, `(\d+)\s*w` and `(\d+)-week`, all
 * case-insensitive; of each, only the leftmost match is looked at, and its digits are accepted
 * when they read as a number from 1 to 52.
 */
module Ocr {
  import opened Wrappers
  import opened Text

  /** What may stand between the digits and the word: `\s*`, or exactly one `-`. */
  datatype Separator = Spaces | Hyphen

  /** The expression `(\d+)<separator><word>`, with the flag `i`; `word` is written in lower case. */
  datatype Pattern = Pattern(separator: Separator, word: string)

  /** The three expressions, in the order they are tried. */
  const WeekPatterns: seq<Pattern> := [Pattern(Spaces, "week"), Pattern(Spaces, "w"), Pattern(Hyphen, "week")]

  /** The largest value accepted. */
  const MaxWeeks: nat := 52

  /** The end of the run of digits that starts at `i`. */
  function DigitRunEnd(s: string, i: nat): (e: nat)
    requires i <= |s|
    ensures i <= e <= |s|
    ensures forall k | i <= k < e :: IsDigit(s[k])
    ensures e < |s| ==> !IsDigit(s[e])
    decreases |s| - i
  {
    if i < |s| && IsDigit(s[i]) then DigitRunEnd(s, i + 1) else i
  }

  /** The end of the run of `\s` characters that starts at `i`. */
  function SpaceRunEnd(s: string, i: nat): (e: nat)
    requires i <= |s|
    ensures i <= e <= |s|
    ensures forall k | i <= k < e :: IsSpace(s[k])
    ensures e < |s| ==> !IsSpace(s[e])
    decreases |s| - i
  {
    if i < |s| && IsSpace(s[i]) then SpaceRunEnd(s, i + 1) else i
  }

  /** Where the word must begin once the separator after the digits ending at `e` is consumed, if it can be. */
  function SeparatorEnd(separator: Separator, s: string, e: nat): (f: Option<nat>)
    requires e <= |s|
    ensures f.Some? ==> e <= f.value <= |s|
  {
    match separator
    case Spaces => Some(SpaceRunEnd(s, e))
    case Hyphen => if e < |s| && s[e] == '-' then Some(e + 1) else None
  }

  /** Whether `word` is written at `f`, letters compared without regard to case. */
  predicate WordAt(s: string, f: nat, word: string) {
    f + |word| <= |s| && forall k | 0 <= k < |word| :: LowerChar(s[f + k]) == word[k]
  }

  /**
   * Whether the expression matches starting at `i`. The digits are the whole run at `i` and the
   * spaces the whole run after it: a shorter run would leave a digit or a space where the
   * separator or the word must begin (`GreedyIsOnlyMatch`).
   */
  predicate MatchesAt(p: Pattern, s: string, i: nat) {
    && i < |s| && IsDigit(s[i])
    && var f := SeparatorEnd(p.separator, s, DigitRunEnd(s, i));
       f.Some? && WordAt(s, f.value, p.word)
  }

  /** The first position from `from` on at which the expression matches. */
  function LeftmostMatch(p: Pattern, s: string, from: nat): (r: Option<nat>)
    requires from <= |s|
    ensures r.Some? ==> from <= r.value < |s| && MatchesAt(p, s, r.value)
    ensures r.Some? ==> forall j | from <= j < r.value :: !MatchesAt(p, s, j)
    ensures r.None? ==> forall j | from <= j < |s| :: !MatchesAt(p, s, j)
    decreases |s| - from
  {
    if from == |s| then None
    else if MatchesAt(p, s, from) then Some(from)
    else LeftmostMatch(p, s, from + 1)
  }

  /** `text.match(pattern)`: where the leftmost match starts, if there is one. */
  function Match(p: Pattern, s: string): Option<nat> {
    LeftmostMatch(p, s, 0)
  }

  /** `match[1]`: the digits of the match starting at `i`. */
  function Captured(s: string, i: nat): (digits: string)
    requires i <= |s|
    ensures AllDigits(digits)
  {
    s[i..DigitRunEnd(s, i)]
  }

  /** The number one expression yields: the value of its leftmost match's digits, when it lies in 1..52. */
  function PatternWeeks(p: Pattern, s: string): Option<nat> {
    match Match(p, s)
    case None => None
    case Some(i) =>
      var weeks := DigitsValue(Captured(s, i));
      if 0 < weeks <= MaxWeeks then Some(weeks) else None
  }

  /** The expressions of `patterns` tried in order: the first that yields a number wins. */
  function TryPatterns(patterns: seq<Pattern>, s: string): Option<nat> {
    if patterns == [] then None
    else
      var weeks := PatternWeeks(patterns[0], s);
      if weeks.Some? then weeks else TryPatterns(patterns[1..], s)
  }

  /** What `extractWeeks` returns, `null` being `None`. */
  function Weeks(s: string): Option<nat> {
    TryPatterns(WeekPatterns, s)
  }

  /** `extractWeeks`: the loop over the expressions, returning as soon as one yields a number in range. */
  method ExtractWeeks(text: string) returns (weeks: Option<nat>)
    ensures weeks == Weeks(text)
  {
    var k := 0;
    while k < |WeekPatterns|
      invariant 0 <= k <= |WeekPatterns|
      invariant TryPatterns(WeekPatterns[k..], text) == Weeks(text)
    {
      var pattern := WeekPatterns[k];
      var found := Match(pattern, text);
      if found.Some? {
        var value := DigitsValue(Captured(text, found.value));
        if 0 < value && value <= MaxWeeks {
          return Some(value);
        }
      }
      assert WeekPatterns[k..][1..] == WeekPatterns[k + 1..];
      k := k + 1;
    }
    return None;
  }

  // ----- The result -----

  /** Every number the expressions of `patterns` give lies in 1..52. */
  lemma {:induction false} TryPatternsInRange(patterns: seq<Pattern>, s: string)
    ensures TryPatterns(patterns, s).Some? ==> 1 <= TryPatterns(patterns, s).value <= MaxWeeks
  {
    if patterns != [] && PatternWeeks(patterns[0], s).None? {
      TryPatternsInRange(patterns[1..], s);
    }
  }

  /** `extractWeeks` gives `null` or a number from 1 to 52. */
  lemma WeeksInRange(s: string)
    ensures Weeks(s).Some? ==> 1 <= Weeks(s).value <= MaxWeeks
  {
    TryPatternsInRange(WeekPatterns, s);
  }

  /**
   * The expressions are tried in order: the result is `None` exactly when none of them yields a
   * number, and otherwise it is the number of the first one that does.
   */
  lemma {:induction false} FirstPatternWins(patterns: seq<Pattern>, s: string)
    ensures TryPatterns(patterns, s).None? <==> forall k | 0 <= k < |patterns| :: PatternWeeks(patterns[k], s).None?
    ensures TryPatterns(patterns, s).Some? ==>
      exists k | 0 <= k < |patterns| ::
        && PatternWeeks(patterns[k], s) == TryPatterns(patterns, s)
        && forall k' | 0 <= k' < k :: PatternWeeks(patterns[k'], s).None?
  {
    if patterns != [] {
      FirstPatternWins(patterns[1..], s);
      if PatternWeeks(patterns[0], s).None? && TryPatterns(patterns, s).Some? {
        var k :| 0 <= k < |patterns[1..]| &&
          PatternWeeks(patterns[1..][k], s) == TryPatterns(patterns, s) &&
          forall k' | 0 <= k' < k :: PatternWeeks(patterns[1..][k'], s).None?;
        assert PatternWeeks(patterns[k + 1], s) == TryPatterns(patterns, s);
      }
    }
  }

  /** The same for the three expressions of `extractWeeks`, written out. */
  lemma WeeksPatternOrder(s: string)
    ensures Weeks(s).None? <==>
      PatternWeeks(WeekPatterns[0], s).None? && PatternWeeks(WeekPatterns[1], s).None? && PatternWeeks(WeekPatterns[2], s).None?
    ensures PatternWeeks(WeekPatterns[0], s).Some? ==> Weeks(s) == PatternWeeks(WeekPatterns[0], s)
    ensures PatternWeeks(WeekPatterns[0], s).None? && PatternWeeks(WeekPatterns[1], s).Some? ==>
      Weeks(s) == PatternWeeks(WeekPatterns[1], s)
    ensures PatternWeeks(WeekPatterns[0], s).None? && PatternWeeks(WeekPatterns[1], s).None? ==>
      Weeks(s) == PatternWeeks(WeekPatterns[2], s)
  {
    FirstPatternWins(WeekPatterns, s);
    assert WeekPatterns[1..][1..][1..] == [];
  }

  // ----- Regular-expression semantics -----

  /** Whether `t` is a possible text for the separator. */
  predicate SeparatorText(separator: Separator, t: string) {
    match separator
    case Spaces => forall k | 0 <= k < |t| :: IsSpace(t[k])
    case Hyphen => t == "-"
  }

  /**
   * The expression read literally: the digits `s[i..e]` (at least one), a separator `s[e..f]`,
   * then the word at `f`; any such split is an attempt the backtracking matcher could accept.
   */
  predicate RegexMatch(p: Pattern, s: string, i: nat, e: nat, f: nat) {
    && i < e <= f <= |s|
    && (forall k | i <= k < e :: IsDigit(s[k]))
    && SeparatorText(p.separator, s[e..f])
    && WordAt(s, f, p.word)
  }

  /** A letter that lower-cases to a lower-case letter is neither a digit, nor `\s`, nor `-`. */
  lemma LetterIsNoSeparator(c: char, w: char)
    requires IsLowerAscii(w) && LowerChar(c) == w
    ensures !IsDigit(c) && !IsSpace(c) && c != '-'
  {
  }

  /**
   * For a word that starts with a letter, the literal reading admits one split only: the whole
   * run of digits and the whole run of spaces, which is the split `MatchesAt` checks. So the
   * match also captures exactly the run of digits at its start.
   */
  lemma GreedyIsOnlyMatch(p: Pattern, s: string, i: nat, e: nat, f: nat)
    requires p.word != [] && IsLowerAscii(p.word[0])
    requires RegexMatch(p, s, i, e, f)
    ensures e == DigitRunEnd(s, i)
    ensures SeparatorEnd(p.separator, s, e) == Some(f)
    ensures MatchesAt(p, s, i)
  {
    LetterIsNoSeparator(s[f], p.word[0]);
    // The character after the digits opens the separator, or the word when the separator is empty.
    if f > e {
      assert s[e..f][0] == s[e];
    }
  }

  /** Conversely, the split `MatchesAt` checks is a literal match. */
  lemma MatchIsRegexMatch(p: Pattern, s: string, i: nat)
    requires MatchesAt(p, s, i)
    ensures RegexMatch(p, s, i, DigitRunEnd(s, i), SeparatorEnd(p.separator, s, DigitRunEnd(s, i)).value)
  {
    var e := DigitRunEnd(s, i);
    var f := SeparatorEnd(p.separator, s, e).value;
    if p.separator.Spaces? {
      assert forall k | 0 <= k < f - e :: s[e..f][k] == s[e + k];
    } else {
      assert s[e..f] == [s[e]];
    }
  }

  /** Only the leftmost match counts: its digits decide, and later matches are never looked at. */
  lemma LeftmostOnlyDecides(p: Pattern, s: string, i: nat)
    requires MatchesAt(p, s, i)
    requires forall j | 0 <= j < i :: !MatchesAt(p, s, j)
    ensures Match(p, s) == Some(i)
    ensures PatternWeeks(p, s).Some? <==> 0 < DigitsValue(Captured(s, i)) <= MaxWeeks
    ensures PatternWeeks(p, s).Some? ==> PatternWeeks(p, s).value == DigitsValue(Captured(s, i))
  {
  }

  // ----- Case -----

  /** Two strings that differ at most in the case of their ASCII letters. */
  predicate SameUpToCase(s: string, t: string) {
    |s| == |t| && forall k | 0 <= k < |s| :: LowerChar(s[k]) == LowerChar(t[k])
  }

  /** A digit, a `\s` character or a `-` equals every character that lower-cases the same. */
  lemma SameUpToCaseChar(c: char, d: char)
    requires LowerChar(c) == LowerChar(d)
    ensures (IsDigit(c) || IsSpace(c) || c == '-') ==> c == d
    ensures (IsDigit(d) || IsSpace(d) || d == '-') ==> c == d
  {
  }

  lemma {:induction false} SameDigitRun(s: string, t: string, i: nat)
    requires SameUpToCase(s, t) && i <= |s|
    ensures DigitRunEnd(s, i) == DigitRunEnd(t, i)
    ensures s[i..DigitRunEnd(s, i)] == t[i..DigitRunEnd(t, i)]
    decreases |s| - i
  {
    if i < |s| {
      SameUpToCaseChar(s[i], t[i]);
      if IsDigit(s[i]) {
        SameDigitRun(s, t, i + 1);
        assert s[i..DigitRunEnd(s, i)] == [s[i]] + s[i + 1..DigitRunEnd(s, i)];
        assert t[i..DigitRunEnd(t, i)] == [t[i]] + t[i + 1..DigitRunEnd(t, i)];
      }
    }
  }

  lemma {:induction false} SameSpaceRun(s: string, t: string, i: nat)
    requires SameUpToCase(s, t) && i <= |s|
    ensures SpaceRunEnd(s, i) == SpaceRunEnd(t, i)
    decreases |s| - i
  {
    if i < |s| {
      SameUpToCaseChar(s[i], t[i]);
      if IsSpace(s[i]) {
        SameSpaceRun(s, t, i + 1);
      }
    }
  }

  lemma SameMatchAt(p: Pattern, s: string, t: string, i: nat)
    requires SameUpToCase(s, t) && i <= |s|
    ensures MatchesAt(p, s, i) <==> MatchesAt(p, t, i)
    ensures Captured(s, i) == Captured(t, i)
  {
    SameDigitRun(s, t, i);
    var e := DigitRunEnd(s, i);
    if i < |s| {
      SameUpToCaseChar(s[i], t[i]);
    }
    if e < |s| {
      SameUpToCaseChar(s[e], t[e]);
    }
    SameSpaceRun(s, t, e);
  }

  lemma {:induction false} SameLeftmostMatch(p: Pattern, s: string, t: string, from: nat)
    requires SameUpToCase(s, t) && from <= |s|
    ensures LeftmostMatch(p, s, from) == LeftmostMatch(p, t, from)
    decreases |s| - from
  {
    if from < |s| {
      SameMatchAt(p, s, t, from);
      SameLeftmostMatch(p, s, t, from + 1);
    }
  }

  lemma SamePatternWeeks(p: Pattern, s: string, t: string)
    requires SameUpToCase(s, t)
    ensures PatternWeeks(p, s) == PatternWeeks(p, t)
  {
    SameLeftmostMatch(p, s, t, 0);
    var m := Match(p, s);
    if m.Some? {
      SameMatchAt(p, s, t, m.value);
    }
  }

  lemma {:induction false} SameTryPatterns(patterns: seq<Pattern>, s: string, t: string)
    requires SameUpToCase(s, t)
    ensures TryPatterns(patterns, s) == TryPatterns(patterns, t)
  {
    if patterns != [] {
      SamePatternWeeks(patterns[0], s, t);
      SameTryPatterns(patterns[1..], s, t);
    }
  }

  /** Letters are matched without regard to case: changing the case of any of them changes nothing. */
  lemma CaseInsensitive(s: string, t: string)
    requires SameUpToCase(s, t)
    ensures Weeks(s) == Weeks(t)
  {
    SameTryPatterns(WeekPatterns, s, t);
  }

  // ----- Phrases -----

  /** A run of digits is fixed by where it stops. */
  lemma DigitRunEndIs(s: string, i: nat, e: nat)
    requires i <= e <= |s|
    requires forall k | i <= k < e :: IsDigit(s[k])
    requires e < |s| ==> !IsDigit(s[e])
    ensures DigitRunEnd(s, i) == e
  {
  }

  /** So is a run of spaces. */
  lemma SpaceRunEndIs(s: string, i: nat, e: nat)
    requires i <= e <= |s|
    requires forall k | i <= k < e :: IsSpace(s[k])
    requires e < |s| ==> !IsSpace(s[e])
    ensures SpaceRunEnd(s, i) == e
  {
  }

  /** When the only digits of `s` are those of the run at `i`, the expression matches there or nowhere. */
  lemma SoleNumber(p: Pattern, s: string, i: nat)
    requires i < |s| && IsDigit(s[i])
    requires forall k | 0 <= k < |s| && !(i <= k < DigitRunEnd(s, i)) :: !IsDigit(s[k])
    ensures Match(p, s) == if MatchesAt(p, s, i) then Some(i) else None
  {
    var m := Match(p, s);
    if m.Some? && m.value != i {
      var j := m.value;
      assert i < j < DigitRunEnd(s, i);
      DigitRunEndIs(s, j, DigitRunEnd(s, i));
    }
  }

  /** A word written in lower case at `f` is there in any case. */
  predicate LowerWord(word: string) {
    word != [] && IsLowerAscii(word[0]) && IsLowerCase(word)
  }

  /** `s[i..]` starting with `a` splits into `a` and what follows. */
  lemma SplitAt(s: string, i: nat, a: string, b: string)
    requires i <= |s| && s[i..] == a + b
    ensures i + |a| <= |s| && s[i..i + |a|] == a && s[i + |a|..] == b
  {
    assert s[i..i + |a|] == s[i..][..|a|];
    assert s[i + |a|..] == s[i..][|a|..];
  }

  /** The characters of a slice are those of the string. */
  lemma SliceChars(s: string, i: nat, j: nat)
    requires i <= j <= |s|
    ensures forall k | i <= k < j :: s[k] == s[i..j][k - i]
  {
  }

  /** The word is at `f` when it is the slice there. */
  lemma WordFromSlice(s: string, f: nat, word: string)
    requires f + |word| <= |s| && s[f..f + |word|] == word && IsLowerCase(word)
    ensures WordAt(s, f, word)
  {
    assert forall k | 0 <= k < |word| :: s[f + k] == word[k];
  }

  /** Digits, then spaces (perhaps none), then the word: an expression with `\s*` matches, capturing the digits. */
  lemma SpacedMatch(p: Pattern, s: string, i: nat, digits: string, gap: string, rest: string)
    requires p.separator.Spaces? && LowerWord(p.word)
    requires digits != [] && AllDigits(digits) && forall k | 0 <= k < |gap| :: IsSpace(gap[k])
    requires i <= |s| && s[i..] == digits + (gap + (p.word + rest))
    ensures MatchesAt(p, s, i)
    ensures DigitRunEnd(s, i) == i + |digits|
    ensures Captured(s, i) == digits
  {
    var e := i + |digits|;
    var f := e + |gap|;
    var w := p.word;
    SplitAt(s, i, digits, gap + (w + rest));
    SplitAt(s, e, gap, w + rest);
    SplitAt(s, f, w, rest);
    SliceChars(s, i, e);
    SliceChars(s, e, f);
    assert s[f] == w[0] by { SliceChars(s, f, f + |w|); }
    LetterIsNoSeparator(w[0], w[0]);
    DigitRunEndIs(s, i, e);
    SpaceRunEndIs(s, e, f);
    WordFromSlice(s, f, w);
  }

  /** Digits, a `-`, then the word: an expression with `-` matches, capturing the digits. */
  lemma HyphenMatch(p: Pattern, s: string, i: nat, digits: string, rest: string)
    requires p.separator.Hyphen? && LowerWord(p.word)
    requires digits != [] && AllDigits(digits)
    requires i <= |s| && s[i..] == digits + ("-" + (p.word + rest))
    ensures MatchesAt(p, s, i)
    ensures DigitRunEnd(s, i) == i + |digits|
    ensures Captured(s, i) == digits
  {
    var e := i + |digits|;
    var w := p.word;
    SplitAt(s, i, digits, "-" + (w + rest));
    SplitAt(s, e, "-", w + rest);
    SplitAt(s, e + 1, w, rest);
    SliceChars(s, i, e);
    assert s[e] == '-' by { SliceChars(s, e, e + 1); }
    DigitRunEndIs(s, i, e);
    WordFromSlice(s, e + 1, w);
  }

  /** Digits directly followed by a `-`: an expression with `\s*` does not match there. */
  lemma SpacedMissesHyphen(p: Pattern, s: string, i: nat, digits: string, rest: string)
    requires p.separator.Spaces? && LowerWord(p.word)
    requires digits != [] && AllDigits(digits)
    requires i <= |s| && s[i..] == digits + ("-" + rest)
    ensures !MatchesAt(p, s, i)
    ensures DigitRunEnd(s, i) == i + |digits|
  {
    var e := i + |digits|;
    SplitAt(s, i, digits, "-" + rest);
    SplitAt(s, e, "-", rest);
    SliceChars(s, i, e);
    assert s[e] == '-' by { SliceChars(s, e, e + 1); }
    DigitRunEndIs(s, i, e);
    SpaceRunEndIs(s, e, e);
  }

  /** No digit before position `i`, so no expression matches before it. */
  lemma NoMatchBefore(p: Pattern, s: string, prefix: string)
    requires |prefix| <= |s| && s[..|prefix|] == prefix
    requires forall k | 0 <= k < |prefix| :: !IsDigit(prefix[k])
    ensures forall j | 0 <= j < |prefix| :: !MatchesAt(p, s, j)
  {
    assert forall j | 0 <= j < |prefix| :: s[j] == prefix[j];
  }

  /**
   * "<n>", spaces (perhaps none), then "week", after a prefix without digits: the result is `n`
   * for `n` in 1..52, whatever follows.
   */
  lemma WeeksOfPhrase(s: string, prefix: string, n: nat, gap: string, rest: string)
    requires s == prefix + NatToString(n) + gap + "week" + rest
    requires forall k | 0 <= k < |prefix| :: !IsDigit(prefix[k])
    requires forall k | 0 <= k < |gap| :: IsSpace(gap[k])
    requires 1 <= n <= MaxWeeks
    ensures Weeks(s) == Some(n)
  {
    var p := WeekPatterns[0];
    var i := |prefix|;
    assert s[..i] == prefix;
    assert s[i..] == NatToString(n) + gap + p.word + rest;
    SpacedMatch(p, s, i, NatToString(n), gap, rest);
    NoMatchBefore(p, s, prefix);
    LeftmostOnlyDecides(p, s, i);
    WeeksPatternOrder(s);
  }

  /** When neither the prefix nor the tail holds a digit, the digits of `s` are those between them. */
  lemma DigitsOnlyThere(s: string, prefix: string, digits: string, tail: string)
    requires s == prefix + digits + tail
    requires forall k | 0 <= k < |prefix| :: !IsDigit(prefix[k])
    requires forall k | 0 <= k < |tail| :: !IsDigit(tail[k])
    ensures forall k | 0 <= k < |s| && !(|prefix| <= k < |prefix| + |digits|) :: !IsDigit(s[k])
  {
    assert forall k | 0 <= k < |prefix| :: s[k] == prefix[k];
    assert forall k | |prefix| + |digits| <= k < |s| :: s[k] == tail[k - |prefix| - |digits|];
  }

  /** Two strings without digits make one without digits. */
  lemma DigitFreeConcat(a: string, b: string)
    requires forall k | 0 <= k < |a| :: !IsDigit(a[k])
    requires forall k | 0 <= k < |b| :: !IsDigit(b[k])
    ensures forall k | 0 <= k < |a + b| :: !IsDigit((a + b)[k])
  {
    forall k | 0 <= k < |a + b| ensures !IsDigit((a + b)[k]) {
      if k < |a| { assert (a + b)[k] == a[k]; } else { assert (a + b)[k] == b[k - |a|]; }
    }
  }

  /** In "<n>", spaces, "w" and a tail without digits, the number is the only run of digits. */
  lemma ShortFormDigits(s: string, prefix: string, n: nat, gap: string, rest: string)
    requires s == prefix + NatToString(n) + gap + "w" + rest
    requires forall k | 0 <= k < |prefix| :: !IsDigit(prefix[k])
    requires forall k | 0 <= k < |gap| :: IsSpace(gap[k])
    requires forall k | 0 <= k < |rest| :: !IsDigit(rest[k])
    ensures |prefix| <= |s| && s[|prefix|..] == NatToString(n) + (gap + ("w" + rest))
    ensures forall k | 0 <= k < |s| && !(|prefix| <= k < |prefix| + |NatToString(n)|) :: !IsDigit(s[k])
  {
    var digits := NatToString(n);
    var tail := gap + ("w" + rest);
    assert forall k | 0 <= k < |gap| :: !IsDigit(gap[k]) by {
      forall k | 0 <= k < |gap| ensures !IsDigit(gap[k]) { assert IsSpace(gap[k]); }
    }
    DigitFreeConcat("w", rest);
    DigitFreeConcat(gap, "w" + rest);
    assert s == prefix + digits + tail;
    DigitsOnlyThere(s, prefix, digits, tail);
    assert s[|prefix|..] == digits + tail;
  }

  /** In "<n>", spaces, "w" and a tail without digits, the first two expressions can only give `n`. */
  lemma ShortFormPatterns(s: string, prefix: string, n: nat, gap: string, rest: string)
    requires s == prefix + NatToString(n) + gap + "w" + rest
    requires forall k | 0 <= k < |prefix| :: !IsDigit(prefix[k])
    requires forall k | 0 <= k < |gap| :: IsSpace(gap[k])
    requires forall k | 0 <= k < |rest| :: !IsDigit(rest[k])
    requires 1 <= n <= MaxWeeks
    ensures PatternWeeks(WeekPatterns[0], s) in {None, Some(n)}
    ensures PatternWeeks(WeekPatterns[1], s) == Some(n)
  {
    var i := |prefix|;
    ShortFormDigits(s, prefix, n, gap, rest);
    SpacedMatch(WeekPatterns[1], s, i, NatToString(n), gap, rest);
    SoleNumber(WeekPatterns[0], s, i);
    SoleNumber(WeekPatterns[1], s, i);
  }

  /** "<n>", spaces (perhaps none), then "w", with no other digit anywhere: the result is `n` for `n` in 1..52. */
  lemma WeeksOfShortForm(s: string, prefix: string, n: nat, gap: string, rest: string)
    requires s == prefix + NatToString(n) + gap + "w" + rest
    requires forall k | 0 <= k < |prefix| :: !IsDigit(prefix[k])
    requires forall k | 0 <= k < |gap| :: IsSpace(gap[k])
    requires forall k | 0 <= k < |rest| :: !IsDigit(rest[k])
    requires 1 <= n <= MaxWeeks
    ensures Weeks(s) == Some(n)
  {
    ShortFormPatterns(s, prefix, n, gap, rest);
    WeeksPatternOrder(s);
  }

  /** In "<n>-week" and a tail without digits, the number is the only run of digits. */
  lemma HyphenFormDigits(s: string, prefix: string, n: nat, rest: string)
    requires s == prefix + NatToString(n) + "-week" + rest
    requires forall k | 0 <= k < |prefix| :: !IsDigit(prefix[k])
    requires forall k | 0 <= k < |rest| :: !IsDigit(rest[k])
    ensures |prefix| <= |s| && s[|prefix|..] == NatToString(n) + ("-" + ("week" + rest))
    ensures forall k | 0 <= k < |s| && !(|prefix| <= k < |prefix| + |NatToString(n)|) :: !IsDigit(s[k])
  {
    var digits := NatToString(n);
    var tail := "-" + ("week" + rest);
    DigitFreeConcat("week", rest);
    DigitFreeConcat("-", "week" + rest);
    assert s == prefix + digits + tail;
    DigitsOnlyThere(s, prefix, digits, tail);
    assert s[|prefix|..] == digits + tail;
  }

  /** In "<n>-week" and a tail without digits, only the third expression matches, and it gives `n`. */
  lemma HyphenFormPatterns(s: string, prefix: string, n: nat, rest: string)
    requires s == prefix + NatToString(n) + "-week" + rest
    requires forall k | 0 <= k < |prefix| :: !IsDigit(prefix[k])
    requires forall k | 0 <= k < |rest| :: !IsDigit(rest[k])
    requires 1 <= n <= MaxWeeks
    ensures PatternWeeks(WeekPatterns[0], s).None?
    ensures PatternWeeks(WeekPatterns[1], s).None?
    ensures PatternWeeks(WeekPatterns[2], s) == Some(n)
  {
    var i := |prefix|;
    var digits := NatToString(n);
    HyphenFormDigits(s, prefix, n, rest);
    HyphenMatch(WeekPatterns[2], s, i, digits, rest);
    SpacedMissesHyphen(WeekPatterns[0], s, i, digits, "week" + rest);
    SpacedMissesHyphen(WeekPatterns[1], s, i, digits, "week" + rest);
    SoleNumber(WeekPatterns[0], s, i);
    SoleNumber(WeekPatterns[1], s, i);
    SoleNumber(WeekPatterns[2], s, i);
  }

  /** "<n>-week", with no other digit anywhere: the result is `n` for `n` in 1..52. */
  lemma WeeksOfHyphenForm(s: string, prefix: string, n: nat, rest: string)
    requires s == prefix + NatToString(n) + "-week" + rest
    requires forall k | 0 <= k < |prefix| :: !IsDigit(prefix[k])
    requires forall k | 0 <= k < |rest| :: !IsDigit(rest[k])
    requires 1 <= n <= MaxWeeks
    ensures Weeks(s) == Some(n)
  {
    HyphenFormPatterns(s, prefix, n, rest);
    WeeksPatternOrder(s);
  }

  /** Without a `-`, the third expression never matches. */
  lemma NoHyphenNoMatch(s: string)
    requires '-' !in s
    ensures Match(WeekPatterns[2], s).None?
  {
  }

  /** An expression with `\s*` whose leftmost match reads a number out of range yields nothing. */
  lemma SpacedOutOfRange(p: Pattern, s: string, prefix: string, n: nat, gap: string, rest: string)
    requires p.separator.Spaces? && LowerWord(p.word)
    requires forall k | 0 <= k < |prefix| :: !IsDigit(prefix[k])
    requires forall k | 0 <= k < |gap| :: IsSpace(gap[k])
    requires |prefix| <= |s| && s[..|prefix|] == prefix
    requires s[|prefix|..] == NatToString(n) + (gap + (p.word + rest))
    requires !(1 <= n <= MaxWeeks)
    ensures PatternWeeks(p, s).None?
  {
    SpacedMatch(p, s, |prefix|, NatToString(n), gap, rest);
    NoMatchBefore(p, s, prefix);
    LeftmostOnlyDecides(p, s, |prefix|);
  }

  /**
   * Only the leftmost match of each expression counts: when the first number written before
   * "week" is out of range, the result is `null`, whatever follows (here without a `-`), later
   * "<n> weeks" in range included.
   */
  lemma LeftmostOnly(s: string, prefix: string, n: nat, gap: string, rest: string)
    requires s == prefix + NatToString(n) + gap + "week" + rest
    requires forall k | 0 <= k < |prefix| :: !IsDigit(prefix[k])
    requires forall k | 0 <= k < |gap| :: IsSpace(gap[k])
    requires !(1 <= n <= MaxWeeks) && '-' !in s
    ensures Weeks(s).None?
  {
    var i := |prefix|;
    var digits := NatToString(n);
    assert s[..i] == prefix;
    assert s[i..] == digits + (gap + ("week" + rest));
    SpacedOutOfRange(WeekPatterns[0], s, prefix, n, gap, rest);
    assert "week" + rest == "w" + ("eek" + rest);
    SpacedOutOfRange(WeekPatterns[1], s, prefix, n, gap, "eek" + rest);
    NoHyphenNoMatch(s);
    WeeksPatternOrder(s);
  }

  /** "99 weeks, 4 weeks" gives `null`: the "4 weeks" after the leftmost match is never looked at. */
  lemma LeftmostOnlyExample()
    ensures Weeks("99 weeks, 4 weeks").None?
  {
    var s := "99 weeks, 4 weeks";
    assert NatToString(99) == "99";
    assert s == "" + NatToString(99) + " " + "week" + "s, 4 weeks";
    LeftmostOnly(s, "", 99, " ", "s, 4 weeks");
  }
}
