/** The two JavaScript string operations the placement logic relies on:
    `String.prototype.indexOf` (with a string argument, searching from 0) and
    `String.prototype.replace` with a string pattern, which replaces only the
    first occurrence. A `char` here is a Unicode scalar value, where JavaScript
    counts UTF-16 code units; only whether a pattern occurs, and where, relative
    to the same string, matters to the callers. */
module JsString {

  /** `pat` occurs in `s` starting at index `k`. */
  ghost predicate OccursAt(s: string, pat: string, k: int) {
    0 <= k && k + |pat| <= |s| && s[k..k + |pat|] == pat
  }

  /** `pat` occurs somewhere in `s` (the reference meaning of "contains"). */
  ghost predicate Occurs(s: string, pat: string) {
    exists k :: OccursAt(s, pat, k)
  }

  /** First index at or after `from` where `pat` occurs, or -1. */
  function IndexFrom(s: string, pat: string, from: nat): (r: int)
    requires from <= |s|
    decreases |s| - from
    ensures r == -1 || (from <= r && OccursAt(s, pat, r))
    ensures r == -1 <==> forall j :: from <= j ==> !OccursAt(s, pat, j)
    ensures r != -1 ==> forall j :: from <= j < r ==> !OccursAt(s, pat, j)
  {
    if from + |pat| > |s| then -1
    else if s[from..from + |pat|] == pat then from
    else IndexFrom(s, pat, from + 1)
  }

  /** `s.indexOf(pat)`: the first occurrence of `pat` in `s`, or -1 when there is none. */
  function IndexOf(s: string, pat: string): (r: int)
    ensures r == -1 || OccursAt(s, pat, r)
    ensures r < 0 <==> !Occurs(s, pat)
    ensures forall j :: 0 <= j < r ==> !OccursAt(s, pat, j)
  {
    IndexFrom(s, pat, 0)
  }

  /** `s.replace(pat, rep)` for a string `pat` and a replacement `rep` without `$`
      patterns: the first occurrence of `pat` is replaced, all later ones are kept. */
  function ReplaceFirst(s: string, pat: string, rep: string): (r: string)
    ensures !Occurs(s, pat) ==> r == s
    ensures Occurs(s, pat) ==> |r| == |s| - |pat| + |rep|
  {
    var i := IndexOf(s, pat);
    if i < 0 then s else s[..i] + rep + s[i + |pat|..]
  }

  /** When the first occurrence of `pat` is the one right after `pre`, exactly that
      occurrence is replaced and everything after it (`post`) is left as it was,
      even when `post` contains `pat` again. */
  lemma ReplaceFirstAt(pre: string, pat: string, post: string, rep: string)
    requires forall k :: 0 <= k < |pre| ==> !OccursAt(pre + pat + post, pat, k)
    ensures ReplaceFirst(pre + pat + post, pat, rep) == pre + rep + post
  {
    var s := pre + pat + post;
    assert s[|pre|..|pre| + |pat|] == pat;
    assert OccursAt(s, pat, |pre|);
    var i := IndexOf(s, pat);
    assert i == |pre|;
    assert s[..i] == pre;
    assert s[i + |pat|..] == post;
  }
}
