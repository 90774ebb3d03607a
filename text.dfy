/**
 * The string operations the server relies on: JavaScript's `String.prototype.includes`,
 * `indexOf` and `replace` with a string pattern (which replaces the first occurrence only
 * and expands `$` patterns in the replacement).
 */
module Text {
  import opened Wrappers

  /** `p` occurs in `s` starting at index `i`. */
  predicate OccursAt(s: string, p: string, i: nat) {
    i + |p| <= |s| && s[i..i + |p|] == p
  }

  /** `s.includes(p)` */
  predicate Contains(s: string, p: string) {
    exists i: nat | i <= |s| :: OccursAt(s, p, i)
  }

  /** The first index at or after `k` where `p` occurs in `s`. */
  function IndexOfFrom(s: string, p: string, k: nat): (r: Option<nat>)
    requires k <= |s|
    ensures r.Some? ==> k <= r.value && OccursAt(s, p, r.value)
    ensures r.Some? ==> forall j: nat :: k <= j < r.value ==> !OccursAt(s, p, j)
    ensures r.None? ==> forall j: nat :: k <= j ==> !OccursAt(s, p, j)
    decreases |s| - k
  {
    if OccursAt(s, p, k) then Some(k)
    else if k == |s| then None
    else IndexOfFrom(s, p, k + 1)
  }

  /** `s.indexOf(p)`, with -1 as None. */
  function IndexOf(s: string, p: string): (r: Option<nat>)
    ensures r.Some? <==> Contains(s, p)
    ensures r.Some? ==> OccursAt(s, p, r.value)
    ensures r.Some? ==> forall j: nat :: j < r.value ==> !OccursAt(s, p, j)
  {
    IndexOfFrom(s, p, 0)
  }

  /** What a two-character `$` pattern stands for when the search pattern is a plain string. */
  function Reference(c: char, matched: string, before: string, after: string): string
    requires c in "$&`'"
  {
    if c == '$' then "$"
    else if c == '&' then matched
    else if c == '`' then before
    else after
  }

  /**
   * The replacement text `replace` inserts: `$$`, `$&`, `` $` `` and `$'` are expanded;
   * every other `$` (there are no capture groups) stands for itself.
   */
  function Expand(template: string, matched: string, before: string, after: string): string
    decreases |template|
  {
    if |template| == 0 then ""
    else if template[0] == '$' && |template| >= 2 && template[1] in "$&`'" then
      Reference(template[1], matched, before, after) + Expand(template[2..], matched, before, after)
    else
      [template[0]] + Expand(template[1..], matched, before, after)
  }

  /** A replacement without `$` is inserted literally. */
  lemma {:induction false} ExpandLiteral(template: string, matched: string, before: string, after: string)
    requires '$' !in template
    ensures Expand(template, matched, before, after) == template
  {
    if |template| > 0 {
      assert template[0] in template;
      assert forall c :: c in template[1..] ==> c in template;
      ExpandLiteral(template[1..], matched, before, after);
      assert [template[0]] + template[1..] == template;
    }
  }

  /** `s.replace(pattern, replacement)` with a string pattern. */
  function ReplaceFirst(s: string, pattern: string, replacement: string): (r: string)
    ensures !Contains(s, pattern) ==> r == s
  {
    match IndexOf(s, pattern)
    case None => s
    case Some(i) =>
      var before := s[..i];
      var after := s[i + |pattern|..];
      before + Expand(replacement, pattern, before, after) + after
  }

  /**
   * With a `$`-free replacement, exactly the first occurrence of the pattern is replaced
   * and everything around it is kept.
   */
  lemma ReplaceFirstLiteral(s: string, pattern: string, replacement: string, i: nat)
    requires '$' !in replacement
    requires OccursAt(s, pattern, i)
    requires forall j: nat :: j < i ==> !OccursAt(s, pattern, j)
    ensures ReplaceFirst(s, pattern, replacement) == s[..i] + replacement + s[i + |pattern|..]
  {
    assert Contains(s, pattern);
    var k := IndexOf(s, pattern).value;
    assert !(k < i);
    assert !(i < k);
    ExpandLiteral(replacement, pattern, s[..i], s[i + |pattern|..]);
  }

  /** An occurrence in `b` is an occurrence in `a + b`, shifted by `|a|`. */
  lemma OccursInSuffix(a: string, b: string, p: string, j: nat)
    requires OccursAt(b, p, j)
    ensures OccursAt(a + b, p, |a| + j)
  {
    assert (a + b)[|a| + j..|a| + j + |p|] == b[j..j + |p|];
  }

  /** `a` occurs at the start of `a + b`. */
  lemma OccursAsPrefix(a: string, b: string)
    ensures OccursAt(a + b, a, 0)
  {
    assert (a + b)[..|a|] == a;
  }
}
