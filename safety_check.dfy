/** The crisis keyword detector: `/\b(kms|kill myself|...)\b/i` tested against the user's text.
    ECMAScript regular-expression semantics without the `u` flag: `\b` looks at IsWordChar,
    whose word characters are `[A-Za-z0-9_]`, and the `i` flag compares characters after
    Canonicalize. Canonicalize never maps a non-ASCII character to an ASCII one, and every
    keyword is ASCII, so for these patterns only ASCII letters fold. */
module SafetyCheck {

  const CriticalKeywords: seq<string> := [
    "kms",
    "kill myself",
    "suicide",
    "self harm",
    "self-harm",
    "wanna die",
    "end it all",
    "ending my life"
  ]

  predicate IsWordChar(c: char)
  {
    ('a' <= c <= 'z') || ('A' <= c <= 'Z') || ('0' <= c <= '9') || c == '_'
  }

  /** Case folding of the `i` flag, restricted to what can matter against ASCII patterns. */
  function Canonicalize(c: char): (r: char)
    ensures 'a' <= c <= 'z' ==> 'A' <= r <= 'Z' && r as int == c as int - 32
    ensures !('a' <= c <= 'z') ==> r == c
  {
    if 'a' <= c <= 'z' then (c as int - 32) as char else c
  }

  /** `\b` at position `p` (0 <= p <= |s|): exactly one of the characters around `p` is a
      word character; outside the string counts as a non-word character. */
  predicate IsBoundary(s: string, p: int)
  {
    var before := 0 < p <= |s| && IsWordChar(s[p - 1]);
    var after := 0 <= p < |s| && IsWordChar(s[p]);
    before != after
  }

  /** The characters of `k` from index `j` on equal, up to case, those of `s` from `p + j` on. */
  predicate MatchesFrom(s: string, p: int, k: string, j: nat)
    requires 0 <= p && p + |k| <= |s|
    decreases |k| - j
  {
    j >= |k| || (Canonicalize(s[p + j]) == Canonicalize(k[j]) && MatchesFrom(s, p, k, j + 1))
  }

  /** `k` occurs at position `p` of `s`, character by character up to case. */
  predicate MatchesAt(s: string, p: int, k: string)
  {
    0 <= p && p + |k| <= |s| && MatchesFrom(s, p, k, 0)
  }

  /** A regex match of keyword `k` starting at `p`: `\b`, the keyword, `\b`. */
  predicate HitAt(s: string, p: int, k: string)
  {
    MatchesAt(s, p, k) && IsBoundary(s, p) && IsBoundary(s, p + |k|)
  }

  /** What `criticalKeywordsRegex.test(text)` decides: some keyword matches at some position. */
  ghost predicate Detected(s: string)
  {
    exists n, p :: 0 <= n < |CriticalKeywords| && 0 <= p <= |s| && HitAt(s, p, CriticalKeywords[n])
  }

  /** Tries the keywords from index `n` on at position `p`, in the order of the alternation. */
  function KeywordFrom(s: string, p: int, n: nat): bool
    requires n <= |CriticalKeywords|
    decreases |CriticalKeywords| - n
  {
    if n == |CriticalKeywords| then false
    else HitAt(s, p, CriticalKeywords[n]) || KeywordFrom(s, p, n + 1)
  }

  /** Scans the positions from `p` on, left to right, as the regex engine does. */
  function ScanFrom(s: string, p: nat): bool
    requires p <= |s| + 1
    decreases |s| + 1 - p
  {
    if p == |s| + 1 then false
    else KeywordFrom(s, p, 0) || ScanFrom(s, p + 1)
  }

  /** Trying the alternatives from `n` on succeeds iff one of them hits at `p`. */
  lemma {:induction false} KeywordFromIsSearch(s: string, p: int, n: nat)
    requires n <= |CriticalKeywords|
    ensures KeywordFrom(s, p, n) <==> exists m :: n <= m < |CriticalKeywords| && HitAt(s, p, CriticalKeywords[m])
    decreases |CriticalKeywords| - n
  {
    if n < |CriticalKeywords| {
      KeywordFromIsSearch(s, p, n + 1);
    }
  }

  /** Scanning from `p` on succeeds iff some keyword hits at some position from `p` on. */
  lemma {:induction false} ScanFromIsSearch(s: string, p: nat)
    requires p <= |s| + 1
    ensures ScanFrom(s, p) <==>
      exists n, q :: 0 <= n < |CriticalKeywords| && p <= q <= |s| && HitAt(s, q, CriticalKeywords[n])
    decreases |s| + 1 - p
  {
    if p <= |s| {
      KeywordFromIsSearch(s, p, 0);
      ScanFromIsSearch(s, p + 1);
      if ScanFrom(s, p) && !KeywordFrom(s, p, 0) {
        var n, q :| 0 <= n < |CriticalKeywords| && p + 1 <= q <= |s| && HitAt(s, q, CriticalKeywords[n]);
      }
      if !ScanFrom(s, p) {
        forall n, q | 0 <= n < |CriticalKeywords| && p <= q <= |s| ensures !HitAt(s, q, CriticalKeywords[n]) {
          if q == p {
            assert !KeywordFrom(s, p, 0);
          }
        }
      }
    }
  }

  /** `checkForCriticalKeywords`: total, stateless, and exactly the detector above. */
  function CheckForCriticalKeywords(text: string): (r: bool)
    ensures r <==> Detected(text)
  {
    ScanFromIsSearch(text, 0);
    ScanFrom(text, 0)
  }

  // ---------------------------------------------------------------------------
  // Properties of the detector

  lemma KeywordsAreLong()
    ensures forall n :: 0 <= n < |CriticalKeywords| ==> |CriticalKeywords[n]| >= 3
  {
    forall n | 0 <= n < |CriticalKeywords| ensures |CriticalKeywords[n]| >= 3 {
      assert n in {0, 1, 2, 3, 4, 5, 6, 7};
    }
  }

  /** Every keyword has at least three characters, so shorter text is never flagged. */
  lemma ShortTextIsNeverDetected(s: string)
    requires |s| < 3
    ensures !Detected(s)
  {
    KeywordsAreLong();
  }

  /** Two characters with the same canonical form are both word characters or both not. */
  lemma CanonicalizeKeepsWordChars(a: char, b: char)
    requires Canonicalize(a) == Canonicalize(b)
    ensures IsWordChar(a) == IsWordChar(b)
  {
  }

  /** One differing character rules the occurrence out. */
  lemma {:induction false} MismatchBlocks(s: string, p: int, k: string, j: nat, i: nat)
    requires 0 <= p && p + |k| <= |s| && j <= i < |k|
    requires Canonicalize(s[p + i]) != Canonicalize(k[i])
    ensures !MatchesFrom(s, p, k, j)
    decreases i - j
  {
    if j < i {
      MismatchBlocks(s, p, k, j + 1, i);
    }
  }

  lemma {:induction false} MatchTransfers(s: string, t: string, p: int, k: string, j: nat)
    requires |s| == |t| && 0 <= p && p + |k| <= |s|
    requires forall i :: 0 <= i < |s| ==> Canonicalize(s[i]) == Canonicalize(t[i])
    requires MatchesFrom(s, p, k, j)
    ensures MatchesFrom(t, p, k, j)
    decreases |k| - j
  {
    if j < |k| {
      MatchTransfers(s, t, p, k, j + 1);
    }
  }

  lemma HitTransfers(s: string, t: string, p: int, k: string)
    requires |s| == |t|
    requires forall i :: 0 <= i < |s| ==> Canonicalize(s[i]) == Canonicalize(t[i])
    requires HitAt(s, p, k)
    ensures HitAt(t, p, k)
  {
    MatchTransfers(s, t, p, k, 0);
    forall i | 0 <= i < |s| ensures IsWordChar(s[i]) == IsWordChar(t[i]) {
      CanonicalizeKeepsWordChars(s[i], t[i]);
    }
  }

  /** Changing the case of ASCII letters never changes the verdict. */
  lemma CaseDoesNotMatter(s: string, t: string)
    requires |s| == |t|
    requires forall i :: 0 <= i < |s| ==> Canonicalize(s[i]) == Canonicalize(t[i])
    ensures Detected(s) <==> Detected(t)
  {
    if Detected(s) {
      var n, p :| 0 <= n < |CriticalKeywords| && 0 <= p <= |s| && HitAt(s, p, CriticalKeywords[n]);
      HitTransfers(s, t, p, CriticalKeywords[n]);
    }
    if Detected(t) {
      var n, p :| 0 <= n < |CriticalKeywords| && 0 <= p <= |t| && HitAt(t, p, CriticalKeywords[n]);
      HitTransfers(t, s, p, CriticalKeywords[n]);
    }
  }

  /** The text with every ASCII letter in upper case. */
  function UpperCase(s: string): string
  {
    seq(|s|, i requires 0 <= i < |s| => Canonicalize(s[i]))
  }

  /** Shouting the message does not hide it, nor does it raise a false alarm. */
  lemma UpperCaseKeepsVerdict(s: string)
    ensures Detected(UpperCase(s)) <==> Detected(s)
  {
    CaseDoesNotMatter(s, UpperCase(s));
  }

  // ---------------------------------------------------------------------------
  // Examples

  lemma KillMyselfSentenceIsDetected()
    ensures CheckForCriticalKeywords("I want to kill myself")
  {
    assert HitAt("I want to kill myself", 10, CriticalKeywords[1]);
  }

  lemma CaseVariantsAreDetected()
    ensures CheckForCriticalKeywords("KILL MYSELF") && CheckForCriticalKeywords("Kill Myself")
  {
    assert HitAt("KILL MYSELF", 0, CriticalKeywords[1]);
    assert HitAt("Kill Myself", 0, CriticalKeywords[1]);
  }

  lemma BothSelfHarmSpellingsAreDetected()
    ensures CheckForCriticalKeywords("self harm") && CheckForCriticalKeywords("self-harm")
  {
    assert HitAt("self harm", 0, CriticalKeywords[3]);
    assert HitAt("self-harm", 0, CriticalKeywords[4]);
  }

  /** A keyword inside a longer word is not a hit. */
  lemma EmbeddedKmsIsNotDetected()
    ensures !CheckForCriticalKeywords("skms")
  {
  }

  lemma KmsFollowedByLetterIsNotDetected()
    ensures !CheckForCriticalKeywords("kmsx")
  {
  }

  lemma KmsFollowedByUnderscoreIsNotDetected()
    ensures !CheckForCriticalKeywords("kms_")
  {
  }

  lemma SuicidesIsNotDetected()
    ensures !CheckForCriticalKeywords("suicides")
  {
  }

  /** The inner spacing of a phrase must match exactly. */
  lemma DoubleSpaceIsNotDetected()
    ensures !CheckForCriticalKeywords("kill  myself")
  {
    MismatchBlocks("kill  myself", 0, CriticalKeywords[1], 0, 5);
  }


}
