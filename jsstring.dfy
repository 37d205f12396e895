/**
 The two JavaScript string operations the path translator relies on:
 `String.prototype.indexOf` (StringIndexOf in ECMA-262) and
 `String.prototype.replace` called with a string pattern and a string
 replacement, which replaces the FIRST occurrence of the pattern only and
 expands the `$` patterns of the replacement (GetSubstitution in ECMA-262).
 Strings are sequences of UTF-16 code units in JavaScript; here they are
 sequences of `char`.
 */
module JsString {

  /** `pat` occurs in `s` starting at index `i`. */
  predicate OccursAt(s: string, pat: string, i: nat)
  {
    i + |pat| <= |s| && s[i..i + |pat|] == pat
  }

  /** StringIndexOf(s, pat, from): the first index at or after `from` where
      `pat` occurs in `s`, or -1 when there is none. */
  function StringIndexOf(s: string, pat: string, from: nat): (r: int)
    ensures r == -1 || (from <= r && OccursAt(s, pat, r))
    ensures r == -1 ==> forall j: nat :: from <= j ==> !OccursAt(s, pat, j)
    ensures r != -1 ==> forall j: nat :: from <= j < r ==> !OccursAt(s, pat, j)
    decreases |s| - from
  {
    if |s| < from + |pat| then -1
    else if s[from..from + |pat|] == pat then from
    else StringIndexOf(s, pat, from + 1)
  }

  /** A string that starts with `pat` has its first occurrence at 0. */
  lemma StringIndexOfAtStart(s: string, pat: string)
    requires |pat| <= |s| && s[..|pat|] == pat
    ensures StringIndexOf(s, pat, 0) == 0
  {
  }

  /** GetSubstitution for a string pattern (no capture groups): the
      replacement template with `$$`, `$&`, `` $` `` and `$'` expanded;
      every other character, including any other `$`, is copied as is.
      `matched` was found in `str` at `position`. */
  function Substitute(matched: string, str: string, position: nat, template: string): string
    requires position + |matched| <= |str|
    decreases |template|
  {
    if template == [] then []
    else if |template| >= 2 && template[0] == '$' && template[1] == '$' then
      "$" + Substitute(matched, str, position, template[2..])
    else if |template| >= 2 && template[0] == '$' && template[1] == '&' then
      matched + Substitute(matched, str, position, template[2..])
    else if |template| >= 2 && template[0] == '$' && template[1] == '`' then
      str[..position] + Substitute(matched, str, position, template[2..])
    else if |template| >= 2 && template[0] == '$' && template[1] == '\'' then
      str[position + |matched|..] + Substitute(matched, str, position, template[2..])
    else
      [template[0]] + Substitute(matched, str, position, template[1..])
  }

  /** `s.replace(pat, repl)` with string arguments. */
  function Replace(s: string, pat: string, repl: string): string
  {
    var i := StringIndexOf(s, pat, 0);
    if i == -1 then s
    else s[..i] + Substitute(pat, s, i, repl) + s[i + |pat|..]
  }

  /** A replacement without `$` is inserted literally. */
  lemma {:induction false} SubstituteLiteral(matched: string, str: string, position: nat, template: string)
    requires position + |matched| <= |str|
    requires '$' !in template
    ensures Substitute(matched, str, position, template) == template
    decreases |template|
  {
    if template != [] {
      assert template[0] != '$';
      SubstituteLiteral(matched, str, position, template[1..]);
      assert [template[0]] + template[1..] == template;
    }
  }

  /** When `pat` does not occur in `s`, `replace` returns `s` unchanged. */
  lemma ReplaceAbsent(s: string, pat: string, repl: string)
    requires forall j: nat :: !OccursAt(s, pat, j)
    ensures Replace(s, pat, repl) == s
  {
  }

  /** With a `$`-free replacement, `replace` swaps exactly the first
      occurrence of `pat` for `repl` and keeps everything before and after it. */
  lemma ReplaceFirstOccurrence(s: string, pat: string, repl: string, i: nat)
    requires OccursAt(s, pat, i)
    requires forall j: nat :: j < i ==> !OccursAt(s, pat, j)
    requires '$' !in repl
    ensures Replace(s, pat, repl) == s[..i] + repl + s[i + |pat|..]
  {
    var r := StringIndexOf(s, pat, 0);
    assert r == i;
    SubstituteLiteral(pat, s, i, repl);
  }
}
