/**
 The three JavaScript string operations the ticket module relies on:
 `s.indexOf(pat)`, `s.includes(pat)` and `s.replace(pat, rep)` with a string
 pattern (which replaces the FIRST occurrence only).
 */
module Strings {
  import opened Options

  /** `pat` occurs in `s` starting at index `i`. */
  predicate OccursAt(s: string, pat: string, i: int) {
    0 <= i && i + |pat| <= |s| && s[i..i + |pat|] == pat
  }

  lemma {:induction false} OccursAtShift(s: string, pat: string, j: int)
    requires |s| > 0 && j >= 0
    ensures OccursAt(s[1..], pat, j) <==> OccursAt(s, pat, j + 1)
  {
    if 0 <= j && j + |pat| <= |s[1..]| {
      assert s[1..][j..j + |pat|] == s[j + 1..j + 1 + |pat|];
    }
  }

  /** `s.indexOf(pat)`: the first index at which `pat` occurs, `None` for -1. */
  function IndexOf(s: string, pat: string): (r: Option<nat>)
    ensures r.Some? ==> OccursAt(s, pat, r.value)
    ensures r.Some? ==> forall j :: 0 <= j < r.value ==> !OccursAt(s, pat, j)
    ensures r.None? ==> forall j :: !OccursAt(s, pat, j)
    decreases |s|
  {
    if pat <= s then
      assert s[0..|pat|] == pat;
      Some(0)
    else if |s| == 0 then
      None
    else
      var rest := IndexOf(s[1..], pat);
      assert forall j | j >= 0 :: OccursAt(s[1..], pat, j) <==> OccursAt(s, pat, j + 1) by {
        forall j | j >= 0 ensures OccursAt(s[1..], pat, j) <==> OccursAt(s, pat, j + 1) {
          OccursAtShift(s, pat, j);
        }
      }
      match rest
      case None =>
        assert forall j :: !OccursAt(s, pat, j) by {
          forall j ensures !OccursAt(s, pat, j) {
            if j > 0 {
              assert !OccursAt(s[1..], pat, j - 1);
            }
          }
        }
        None
      case Some(i) =>
        assert forall j :: 0 <= j < i + 1 ==> !OccursAt(s, pat, j) by {
          forall j | 0 <= j < i + 1 ensures !OccursAt(s, pat, j) {
            if j > 0 {
              assert !OccursAt(s[1..], pat, j - 1);
            }
          }
        }
        Some(i + 1)
  }

  /** `s.includes(pat)`. */
  function Includes(s: string, pat: string): (b: bool)
    ensures b <==> exists i :: OccursAt(s, pat, i)
  {
    var r := IndexOf(s, pat);
    if r.Some? then assert OccursAt(s, pat, r.value); true else false
  }

  /**
   `s.replace(pat, rep)` with a string pattern: only the first occurrence is
   replaced. `rep` is inserted literally, which is JavaScript's behaviour only
   for a replacement without `$` patterns (`$&`, `$$`, ...), such as `closed`.
   */
  function ReplaceFirst(s: string, pat: string, rep: string): (r: string)
    ensures !Includes(s, pat) ==> r == s
    ensures Includes(s, pat) ==>
              exists i :: OccursAt(s, pat, i)
                          && (forall j :: 0 <= j < i ==> !OccursAt(s, pat, j))
                          && r == s[..i] + rep + s[i + |pat|..]
  {
    match IndexOf(s, pat)
    case None => s
    case Some(i) => s[..i] + rep + s[i + |pat|..]
  }

  /** A string that starts with `p` contains it, and its first occurrence is at 0. */
  lemma PrefixFoundAtZero(p: string, u: string)
    ensures IndexOf(p + u, p) == Some(0)
    ensures Includes(p + u, p)
  {
    assert OccursAt(p + u, p, 0) by { assert (p + u)[0..|p|] == p; }
  }

  /** Replacing the leading pattern of `p + u` swaps it for `rep` and keeps `u` intact. */
  lemma ReplaceLeading(p: string, u: string, rep: string)
    ensures ReplaceFirst(p + u, p, rep) == rep + u
  {
    PrefixFoundAtZero(p, u);
    var s := p + u;
    assert ReplaceFirst(s, p, rep) == s[..0] + rep + s[|p|..];
    assert s[|p|..] == u;
  }

  /**
   When no suffix of `q` is a proper prefix of `pat`, an occurrence of `pat`
   in `q + u` lies wholly inside `q` or wholly inside `u`.
   */
  lemma {:induction false} OccursInConcat(q: string, u: string, pat: string, i: int)
    requires OccursAt(q + u, pat, i)
    requires |pat| > 0
    requires forall k :: 0 <= k < |q| ==> q[k] != pat[0]
    ensures i >= |q| && OccursAt(u, pat, i - |q|)
  {
    assert (q + u)[i] == pat[0] by { assert (q + u)[i..i + |pat|][0] == (q + u)[i]; }
    assert (q + u)[i..i + |pat|] == u[i - |q|..i - |q| + |pat|];
  }

  /** An occurrence inside `u` is an occurrence inside `q + u`, shifted by `|q|`. */
  lemma IncludesInSuffix(q: string, u: string, pat: string)
    requires Includes(u, pat)
    ensures Includes(q + u, pat)
  {
    var i :| OccursAt(u, pat, i);
    assert (q + u)[i + |q|..i + |q| + |pat|] == u[i..i + |pat|];
    assert OccursAt(q + u, pat, i + |q|);
  }
}
