/** The few JavaScript string operations the modelled code relies on:
    truthiness of strings, `startsWith` and `replace` with a string pattern
    (which replaces the FIRST occurrence only). */
module JsStrings {
  import opened Wrappers

  /** `a || b` on two strings: the empty string is the only falsy string. */
  function OrElse(a: string, b: string): (r: string)
    ensures a != "" ==> r == a
    ensures r == a || r == b
    ensures r != "" <==> a != "" || b != ""
  {
    if a != "" then a else b
  }

  /** `s.startsWith(prefix)`. */
  predicate StartsWith(s: string, prefix: string) {
    |prefix| <= |s| && s[..|prefix|] == prefix
  }

  predicate OccursAt(s: string, pat: string, j: nat) {
    j + |pat| <= |s| && s[j..j + |pat|] == pat
  }

  /** `s.indexOf(pat, from)`: the first position at or after `from` where `pat` occurs. */
  function IndexOfFrom(s: string, pat: string, from: nat): (r: Option<nat>)
    requires from <= |s|
    decreases |s| - from
    ensures r.Some? ==> from <= r.value && OccursAt(s, pat, r.value)
    ensures r.Some? ==> forall j :: from <= j < r.value ==> !OccursAt(s, pat, j)
    ensures r.None? ==> forall j :: from <= j <= |s| ==> !OccursAt(s, pat, j)
  {
    if from + |pat| > |s| then None
    else if s[from..from + |pat|] == pat then Some(from)
    else IndexOfFrom(s, pat, from + 1)
  }

  /** `s.replace(pat, rep)` for a string `pat` and a replacement without `$`
      (JavaScript expands `$&`, `$$` and the like in a replacement string):
      only the first occurrence is replaced. */
  function ReplaceFirst(s: string, pat: string, rep: string): (r: string)
    requires '$' !in rep
    ensures IndexOfFrom(s, pat, 0).None? ==> r == s
    ensures IndexOfFrom(s, pat, 0).Some? ==>
      var k := IndexOfFrom(s, pat, 0).value;
      && |r| == |s| - |pat| + |rep|
      && r[..k] == s[..k] && r[k..k + |rep|] == rep && r[k + |rep|..] == s[k + |pat|..]
  {
    match IndexOfFrom(s, pat, 0)
    case None => s
    case Some(k) => s[..k] + rep + s[k + |pat|..]
  }

  /** When `s` starts with `p`, the first occurrence of `p` is the prefix itself,
      so replacing it by "" strips exactly that prefix. */
  lemma ReplacePrefixStrips(s: string, p: string)
    requires StartsWith(s, p)
    ensures ReplaceFirst(s, p, "") == s[|p|..]
    ensures p + ReplaceFirst(s, p, "") == s
  {
    assert OccursAt(s, p, 0);
    var k := IndexOfFrom(s, p, 0);
    assert k == Some(0);
    assert s[..|p|] + s[|p|..] == s;
  }
}
