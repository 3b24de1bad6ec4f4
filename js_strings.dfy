/**
 * The few JavaScript value semantics the classifier relies on: optional
 * values, the truthiness of a string that may be missing, and
 * `String.prototype.indexOf`.
 */
module JsStrings {

  /** A property that may be missing (`undefined`/`null`) or hold a value. */
  datatype Option<T> = None | Some(value: T)

  /** JavaScript truthiness of a possibly missing string: only a present, non-empty string is truthy. */
  predicate Truthy(o: Option<string>) {
    o.Some? && o.value != ""
  }

  /** `pat` occurs in `s` starting at index `i`. */
  ghost predicate OccursAt(s: string, pat: string, i: int) {
    0 <= i && i + |pat| <= |s| && s[i..i + |pat|] == pat
  }

  /**
   * `s.indexOf(pat)`: the first index at which `pat` occurs in `s`, or -1 when
   * it occurs nowhere (an empty `pat` occurs at 0).
   */
  function IndexOf(s: string, pat: string): (r: int)
    ensures r == -1 || 0 <= r <= |s| - |pat|
    ensures r == -1 <==> forall i :: !OccursAt(s, pat, i)
    ensures r >= 0 ==> OccursAt(s, pat, r) && forall j :: 0 <= j < r ==> !OccursAt(s, pat, j)
    decreases |s|
  {
    if |pat| > |s| then
      -1
    else if s[..|pat|] == pat then
      assert OccursAt(s, pat, 0);
      0
    else
      assert !OccursAt(s, pat, 0);
      var r := IndexOf(s[1..], pat);
      ShiftOccurrence(s, pat);
      if r == -1 then -1 else r + 1
  }

  /** Occurrences in `s[1..]` are the occurrences in `s` shifted by one. */
  lemma ShiftOccurrence(s: string, pat: string)
    requires |s| > 0
    ensures forall i {:trigger OccursAt(s[1..], pat, i)} :: 0 <= i ==> (OccursAt(s[1..], pat, i) <==> OccursAt(s, pat, i + 1))
    ensures forall k {:trigger OccursAt(s, pat, k)} :: 1 <= k ==> (OccursAt(s, pat, k) <==> OccursAt(s[1..], pat, k - 1))
  {
    forall i | 0 <= i ensures OccursAt(s[1..], pat, i) <==> OccursAt(s, pat, i + 1) {
      if 0 <= i && i + |pat| <= |s| - 1 {
        assert s[1..][i..i + |pat|] == s[i + 1..i + 1 + |pat|];
      }
    }
  }

  /** `s.indexOf(pat) === 0` says exactly that `s` starts with `pat`. */
  lemma IndexOfZeroIsPrefix(s: string, pat: string)
    ensures IndexOf(s, pat) == 0 <==> |pat| <= |s| && s[..|pat|] == pat
  {
    if |pat| <= |s| && s[..|pat|] == pat {
      assert OccursAt(s, pat, 0);
    }
  }

  /** `pat` matches `s` at `i` from its `k`-th character on, compared one character at a time. */
  predicate MatchesFrom(s: string, pat: string, i: nat, k: nat)
    requires i + |pat| <= |s|
    decreases |pat| - k
  {
    k >= |pat| || (s[i + k] == pat[k] && MatchesFrom(s, pat, i, k + 1))
  }

  /** `pat` matches `s` at no index from `i` on; Dafny evaluates this on short literal strings. */
  predicate AbsentFrom(s: string, pat: string, i: nat)
    decreases |s| - i
  {
    i + |pat| > |s| || (!MatchesFrom(s, pat, i, 0) && AbsentFrom(s, pat, i + 1))
  }

  /** An occurrence matches character by character. */
  lemma {:induction false} OccurrenceMatches(s: string, pat: string, i: nat, k: nat)
    requires OccursAt(s, pat, i)
    ensures MatchesFrom(s, pat, i, k)
    decreases |pat| - k
  {
    if k < |pat| {
      assert s[i..i + |pat|][k] == pat[k];
      OccurrenceMatches(s, pat, i, k + 1);
    }
  }

  /** What `AbsentFrom` decides: `pat` occurs nowhere from `i` on. */
  lemma {:induction false} AbsentFromHasNoOccurrence(s: string, pat: string, i: nat)
    requires AbsentFrom(s, pat, i)
    ensures forall j :: i <= j ==> !OccursAt(s, pat, j)
    decreases |s| - i
  {
    if i + |pat| <= |s| {
      if OccursAt(s, pat, i) {
        OccurrenceMatches(s, pat, i, 0);
      }
      AbsentFromHasNoOccurrence(s, pat, i + 1);
    }
  }

  /** `s.indexOf(pat) === -1` for a string in which `AbsentFrom` finds no match. */
  lemma IndexOfAbsent(s: string, pat: string)
    requires AbsentFrom(s, pat, 0)
    ensures IndexOf(s, pat) == -1
  {
    AbsentFromHasNoOccurrence(s, pat, 0);
  }

  /** A match found character by character is an occurrence; Dafny evaluates the premise on literal strings. */
  lemma {:induction false} MatchesFromOccurs(s: string, pat: string, i: nat)
    requires i + |pat| <= |s| && MatchesFrom(s, pat, i, 0)
    ensures OccursAt(s, pat, i)
  {
    MatchedSuffix(s, pat, i, 0);
  }

  lemma {:induction false} MatchedSuffix(s: string, pat: string, i: nat, k: nat)
    requires i + |pat| <= |s| && k <= |pat| && MatchesFrom(s, pat, i, k)
    ensures s[i + k..i + |pat|] == pat[k..]
    decreases |pat| - k
  {
    if k < |pat| {
      MatchedSuffix(s, pat, i, k + 1);
      assert s[i + k..i + |pat|] == [s[i + k]] + s[i + k + 1..i + |pat|];
      assert pat[k..] == [pat[k]] + pat[k + 1..];
    }
  }
}
