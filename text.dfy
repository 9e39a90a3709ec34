/** The string operations the upload uses: `str.replace` and `os.path.basename`. */
module Text {

  /** `pat` occurs in `s` starting at index `i`. */
  predicate OccursAt(s: string, pat: string, i: int) {
    0 <= i && i + |pat| <= |s| && s[i..i + |pat|] == pat
  }

  /** Python's `pat in s` for strings. */
  predicate Occurs(s: string, pat: string)
    ensures Occurs(s, pat) <==> exists i :: OccursAt(s, pat, i)
  {
    exists i | 0 <= i <= |s| - |pat| :: OccursAt(s, pat, i)
  }

  /** Python's `s.replace(pat, rep)` for a non-empty `pat`: scans left to right
      and replaces every non-overlapping occurrence; a string without the pattern
      is left unchanged. */
  function ReplaceAll(s: string, pat: string, rep: string): (r: string)
    requires pat != ""
    ensures !Occurs(s, pat) ==> r == s
    decreases |s|
  {
    if |s| < |pat| then s
    else if s[..|pat|] == pat then
      assert OccursAt(s, pat, 0);
      rep + ReplaceAll(s[|pat|..], pat, rep)
    else
      OccursInTail(s, pat);
      [s[0]] + ReplaceAll(s[1..], pat, rep)
  }

  /** An occurrence in the tail is an occurrence in the whole string. */
  lemma OccursInTail(s: string, pat: string)
    requires s != []
    ensures Occurs(s[1..], pat) ==> Occurs(s, pat)
  {
    forall i | OccursAt(s[1..], pat, i) ensures OccursAt(s, pat, i + 1) {
      assert s[i + 1..i + 1 + |pat|] == s[1..][i..i + |pat|];
    }
  }

  /** `pat` does not occur in `pre + pat + post` before the end of `pre`: the `pat` after
      `pre` is its leftmost occurrence. */
  predicate NoEarlier(pre: string, pat: string, post: string) {
    forall i :: 0 <= i < |pre| ==> !OccursAt(pre + pat + post, pat, i)
  }

  /** The leftmost occurrence of the pattern is replaced by `rep`, the text before it is
      kept, and the scan goes on after it. */
  lemma {:induction false} ReplaceAtLeftmost(pre: string, pat: string, post: string, rep: string)
    requires pat != ""
    requires NoEarlier(pre, pat, post)
    ensures ReplaceAll(pre + pat + post, pat, rep) == pre + rep + ReplaceAll(post, pat, rep)
    decreases |pre|
  {
    if pre == [] {
      assert pre + pat + post == pat + post;
      ReplaceAtStart(pat, post, rep);
    } else {
      NoEarlierInTail(pre, pat, post);
      ReplaceAtLeftmost(pre[1..], pat, post, rep);
      ReplaceSkipsFirst(pre + pat + post, pat, rep);
      ConsSplit(pre, pat, post, rep, ReplaceAll(post, pat, rep));
    }
  }

  /** Without the pattern at the start, the first character is kept and the scan moves on. */
  lemma ReplaceSkipsFirst(s: string, pat: string, rep: string)
    requires pat != "" && |s| >= |pat| && !OccursAt(s, pat, 0)
    ensures ReplaceAll(s, pat, rep) == [s[0]] + ReplaceAll(s[1..], pat, rep)
  {
  }

  /** Dropping the first character of the prefix keeps the later `pat` leftmost. */
  lemma NoEarlierInTail(pre: string, pat: string, post: string)
    requires pre != []
    requires NoEarlier(pre, pat, post)
    ensures |pre + pat + post| >= |pat| && !OccursAt(pre + pat + post, pat, 0)
    ensures NoEarlier(pre[1..], pat, post)
  {
    var s, t := pre + pat + post, pre[1..] + pat + post;
    assert !OccursAt(s, pat, 0);
    forall i | 0 <= i < |pre[1..]| ensures !OccursAt(t, pat, i) {
      assert !OccursAt(s, pat, i + 1);
      assert t[i..i + |pat|] == s[i + 1..i + 1 + |pat|];
    }
  }

  lemma ConsSplit(pre: string, pat: string, post: string, rep: string, rest: string)
    requires pre != []
    ensures (pre + pat + post)[0] == pre[0] && (pre + pat + post)[1..] == pre[1..] + pat + post
    ensures pre + rep + rest == [pre[0]] + (pre[1..] + rep + rest)
  {
  }

  /** A pattern at the very start is replaced, and the scan goes on after it. */
  lemma ReplaceAtStart(pat: string, post: string, rep: string)
    requires pat != ""
    ensures ReplaceAll(pat + post, pat, rep) == rep + ReplaceAll(post, pat, rep)
  {
    assert (pat + post)[..|pat|] == pat;
    assert (pat + post)[|pat|..] == post;
  }

  /** Python's `os.path.basename`: the text after the last '/', or all of it when
      there is none. */
  function Basename(path: string): (name: string)
    ensures '/' !in name
    ensures |name| <= |path| && name == path[|path| - |name|..]
    ensures |name| == |path| || path[|path| - |name| - 1] == '/'
  {
    if path == [] then []
    else if path[|path| - 1] == '/' then []
    else
      var init := path[..|path| - 1];
      var name := Basename(init) + [path[|path| - 1]];
      assert path[|path| - |name|..] == init[|init| - |name| + 1..] + [path[|path| - 1]];
      name
  }
}
