// String operations of the JavaScript runtime that the modelled code relies on:
// indexOf, replace with a string pattern, Array.prototype.join, trim and
// case conversion.

module Strs {
  import opened Wrappers

  /** `pat` occurs in `s` starting at index `i`. */
  predicate OccursAt(s: string, pat: string, i: nat)
  {
    i + |pat| <= |s| && s[i..i + |pat|] == pat
  }

  /** String.prototype.indexOf(pat, from): the first occurrence at or after `from`. */
  function IndexOfFrom(s: string, pat: string, from: nat): (r: Option<nat>)
    decreases |s| - from
    ensures r.Some? ==> from <= r.value && OccursAt(s, pat, r.value)
    ensures r.Some? ==> forall j: nat :: from <= j < r.value ==> !OccursAt(s, pat, j)
    ensures r.None? ==> forall j: nat :: from <= j ==> !OccursAt(s, pat, j)
  {
    if from + |pat| > |s| then None
    else if s[from..from + |pat|] == pat then Some(from)
    else IndexOfFrom(s, pat, from + 1)
  }

  function IndexOf(s: string, pat: string): Option<nat>
  {
    IndexOfFrom(s, pat, 0)
  }

  predicate Contains(s: string, pat: string)
  {
    IndexOf(s, pat).Some?
  }

  /** indexOf is determined by the occurrences: the first one, or none. */
  lemma IndexOfIs(s: string, pat: string, p: Option<nat>)
    requires p.Some? ==> OccursAt(s, pat, p.value)
    requires p.Some? ==> forall j: nat :: j < p.value ==> !OccursAt(s, pat, j)
    requires p.None? ==> forall j: nat :: !OccursAt(s, pat, j)
    ensures IndexOf(s, pat) == p
  {
  }

  /** A replacement string free of the `$$`, `$&`, `` $` `` and `$'` patterns. */
  predicate Inert(rep: string)
  {
    forall i :: 0 <= i < |rep| - 1 && rep[i] == '$' ==>
      rep[i + 1] != '$' && rep[i + 1] != '&' && rep[i + 1] != '`' && rep[i + 1] != '\''
  }

  /** GetSubstitution of ECMAScript (section 22.1.3.19.1 of ECMA-262) for a string
      pattern, which has no capture groups: `$$` gives `$`, `$&` the matched text,
      `` $` `` the text before the match, `$'` the text after it; every other
      character, including a `$` before anything else, is copied. */
  function Substitute(rep: string, matched: string, before: string, after: string): string
    decreases |rep|
  {
    if |rep| == 0 then ""
    else if rep[0] == '$' && |rep| >= 2 && rep[1] == '$' then "$" + Substitute(rep[2..], matched, before, after)
    else if rep[0] == '$' && |rep| >= 2 && rep[1] == '&' then matched + Substitute(rep[2..], matched, before, after)
    else if rep[0] == '$' && |rep| >= 2 && rep[1] == '`' then before + Substitute(rep[2..], matched, before, after)
    else if rep[0] == '$' && |rep| >= 2 && rep[1] == '\'' then after + Substitute(rep[2..], matched, before, after)
    else [rep[0]] + Substitute(rep[1..], matched, before, after)
  }

  /** An inert replacement is inserted verbatim. */
  lemma {:induction false} SubstituteInert(rep: string, matched: string, before: string, after: string)
    requires Inert(rep)
    ensures Substitute(rep, matched, before, after) == rep
  {
    if |rep| > 0 {
      assert Inert(rep[1..]) by {
        forall i | 0 <= i < |rep[1..]| - 1 && rep[1..][i] == '$'
          ensures rep[1..][i + 1] != '$' && rep[1..][i + 1] != '&' && rep[1..][i + 1] != '`' && rep[1..][i + 1] != '\''
        {
          assert rep[i + 1] == '$';
        }
      }
      SubstituteInert(rep[1..], matched, before, after);
    }
  }

  /** String.prototype.replace(pat, rep) with a string pattern: only the first
      occurrence is replaced, by the substitution of `rep`. */
  function ReplaceFirst(s: string, pat: string, rep: string): string
  {
    match IndexOf(s, pat)
    case None => s
    case Some(p) => s[..p] + Substitute(rep, pat, s[..p], s[p + |pat|..]) + s[p + |pat|..]
  }

  /** Without an occurrence, replace returns the string unchanged; otherwise an
      inert replacement takes the place of the first occurrence. */
  lemma ReplaceFirstSpec(s: string, pat: string, rep: string)
    requires Inert(rep)
    ensures IndexOf(s, pat).None? ==> ReplaceFirst(s, pat, rep) == s
    ensures IndexOf(s, pat).Some? ==>
      var p := IndexOf(s, pat).value;
      ReplaceFirst(s, pat, rep) == s[..p] + rep + s[p + |pat|..]
  {
    match IndexOf(s, pat)
    case None =>
    case Some(p) => SubstituteInert(rep, pat, s[..p], s[p + |pat|..]);
  }

  /** A prefix that cannot start the pattern is skipped by indexOf. */
  lemma IndexOfAfterPrefix(pre: string, s: string, pat: string)
    requires |pat| > 0 && pat[0] !in pre
    ensures IndexOf(pre + s, pat) == match IndexOf(s, pat) case None => None case Some(p) => Some(|pre| + p)
  {
    var t := pre + s;
    forall j: nat | j < |pre| ensures !OccursAt(t, pat, j) {
      assert t[j] == pre[j];
      assert j + |pat| <= |t| ==> t[j..j + |pat|][0] == t[j];
    }
    forall k: nat ensures OccursAt(t, pat, |pre| + k) == OccursAt(s, pat, k) {
      if |pre| + k + |pat| <= |t| { assert t[|pre| + k..|pre| + k + |pat|] == s[k..k + |pat|]; }
    }
    match IndexOf(s, pat)
    case None =>
      forall j: nat ensures !OccursAt(t, pat, j) {
        if j >= |pre| { assert OccursAt(t, pat, |pre| + (j - |pre|)) == OccursAt(s, pat, j - |pre|); }
      }
      IndexOfIs(t, pat, None);
    case Some(p) =>
      forall j: nat | j < |pre| + p ensures !OccursAt(t, pat, j) {
        if j >= |pre| { assert OccursAt(t, pat, |pre| + (j - |pre|)) == OccursAt(s, pat, j - |pre|); }
      }
      assert OccursAt(t, pat, |pre| + p) == OccursAt(s, pat, p);
      IndexOfIs(t, pat, Some(|pre| + p));
  }

  /** Replacing in text behind a prefix that cannot start the pattern leaves the
      prefix alone. */
  lemma ReplaceFirstAfterPrefix(pre: string, s: string, pat: string, rep: string)
    requires |pat| > 0 && pat[0] !in pre && Inert(rep)
    ensures ReplaceFirst(pre + s, pat, rep) == pre + ReplaceFirst(s, pat, rep)
  {
    IndexOfAfterPrefix(pre, s, pat);
    match IndexOf(s, pat)
    case None =>
    case Some(p) => ReplaceFoundAfterPrefix(pre, s, pat, rep, p);
  }

  lemma ReplaceFoundAfterPrefix(pre: string, s: string, pat: string, rep: string, p: nat)
    requires |pat| > 0 && pat[0] !in pre && Inert(rep)
    requires IndexOf(s, pat) == Some(p)
    ensures ReplaceFirst(pre + s, pat, rep) == pre + ReplaceFirst(s, pat, rep)
  {
    IndexOfAfterPrefix(pre, s, pat);
    ReplaceFirstSpec(pre + s, pat, rep);
    ReplaceFirstSpec(s, pat, rep);
    SpliceBehind(pre, s, p, |pat|, rep);
  }

  lemma SpliceBehind(pre: string, s: string, p: nat, k: nat, rep: string)
    requires p + k <= |s|
    ensures (pre + s)[..|pre| + p] + rep + (pre + s)[|pre| + p + k..] == pre + (s[..p] + rep + s[p + k..])
  {
    assert (pre + s)[..|pre| + p] == pre + s[..p];
    assert (pre + s)[|pre| + p + k..] == s[p + k..];
  }

  /** Array.prototype.join: the parts separated by `sep`; no parts give "". */
  function Join(parts: seq<string>, sep: string): string
  {
    if |parts| == 0 then ""
    else if |parts| == 1 then parts[0]
    else parts[0] + sep + Join(parts[1..], sep)
  }

  /** Joining at a split point puts one separator between the two joins. */
  lemma {:induction false} JoinAppend(a: seq<string>, b: seq<string>, sep: string)
    requires |a| > 0 && |b| > 0
    ensures Join(a + b, sep) == Join(a, sep) + sep + Join(b, sep)
  {
    if |a| == 1 {
      assert (a + b)[1..] == b;
    } else {
      assert (a + b)[1..] == a[1..] + b;
      JoinAppend(a[1..], b, sep);
    }
  }

  /** `n` copies of `s`. */
  function Repeat(s: string, n: nat): (r: seq<string>)
    ensures |r| == n && forall i :: 0 <= i < n ==> r[i] == s
  {
    if n == 0 then [] else [s] + Repeat(s, n - 1)
  }

  /** The characters String.prototype.trim removes: WhiteSpace and
      LineTerminator of ECMA-262 (sections 12.2 and 12.3). */
  predicate IsJsSpace(c: char)
  {
    c == '\t' || c == '\n' || c == '\U{000B}' || c == '\U{000C}' || c == '\r' || c == ' '
    || c == '\U{00A0}' || c == '\U{1680}' || ('\U{2000}' <= c <= '\U{200A}')
    || c == '\U{2028}' || c == '\U{2029}' || c == '\U{202F}' || c == '\U{205F}'
    || c == '\U{3000}' || c == '\U{FEFF}'
  }

  function TrimStart(s: string): (r: string)
    ensures |r| <= |s| && r == s[|s| - |r|..]
    ensures |r| > 0 ==> !IsJsSpace(r[0])
    ensures forall i :: 0 <= i < |s| - |r| ==> IsJsSpace(s[i])
  {
    if |s| > 0 && IsJsSpace(s[0]) then TrimStart(s[1..]) else s
  }

  function TrimEnd(s: string): (r: string)
    ensures |r| <= |s| && r == s[..|r|]
    ensures |r| > 0 ==> !IsJsSpace(r[|r| - 1])
    ensures forall i :: |r| <= i < |s| ==> IsJsSpace(s[i])
  {
    if |s| > 0 && IsJsSpace(s[|s| - 1]) then TrimEnd(s[..|s| - 1]) else s
  }

  /** String.prototype.trim. */
  function Trim(s: string): string
  {
    TrimEnd(TrimStart(s))
  }

  /** A string made only of white space: `!s || s.trim() === ''`. */
  predicate IsBlank(s: string)
  {
    forall i :: 0 <= i < |s| ==> IsJsSpace(s[i])
  }

  /** trim() yields '' exactly for blank strings. */
  lemma TrimEmptyIffBlank(s: string)
    ensures Trim(s) == "" <==> IsBlank(s)
  {
    if IsBlank(s) {
      BlankTrimStart(s);
    }
  }

  lemma {:induction false} BlankTrimStart(s: string)
    requires IsBlank(s)
    ensures TrimStart(s) == ""
  {
    if |s| > 0 {
      BlankTrimStart(s[1..]);
    }
  }

  /** A string holding a character that is not white space is not blank. */
  lemma NotBlankWith(a: string, b: string, c: string, k: nat)
    requires k < |b| && !IsJsSpace(b[k])
    ensures !IsBlank(a + b + c)
  {
    assert (a + b + c)[|a| + k] == b[k];
  }

  function ToLowerChar(c: char): char
  {
    if 'A' <= c <= 'Z' then (c as int + 32) as char else c
  }

  function ToUpperChar(c: char): char
  {
    if 'a' <= c <= 'z' then (c as int - 32) as char else c
  }

  /** toLowerCase / toUpperCase, on the ASCII letters. */
  function ToLower(s: string): (r: string)
    ensures |r| == |s| && forall i :: 0 <= i < |s| ==> r[i] == ToLowerChar(s[i])
  {
    seq(|s|, i requires 0 <= i < |s| => ToLowerChar(s[i]))
  }

  function ToUpper(s: string): (r: string)
    ensures |r| == |s| && forall i :: 0 <= i < |s| ==> r[i] == ToUpperChar(s[i])
  {
    seq(|s|, i requires 0 <= i < |s| => ToUpperChar(s[i]))
  }

  /** Case-insensitive equality: `a.toLowerCase() === b.toLowerCase()`. */
  predicate EqualsIgnoreCase(a: string, b: string)
  {
    ToLower(a) == ToLower(b)
  }

  /** Case conversion forgets the case it started from: lower-casing after
      either conversion gives the lower-case form, and upper-casing after
      lower-casing gives the upper-case form. */
  lemma CaseConversions(s: string)
    ensures ToLower(ToLower(s)) == ToLower(s)
    ensures ToLower(ToUpper(s)) == ToLower(s)
    ensures ToUpper(ToLower(s)) == ToUpper(s)
  {
  }

  /** The decimal digits of a number, as `String(n)` writes an integer. */
  function NatToString(n: nat): (r: string)
    ensures |r| > 0 && forall i :: 0 <= i < |r| ==> '0' <= r[i] <= '9'
    decreases n
  {
    var d := ['0' + ((n % 10) as char)];
    if n < 10 then d else NatToString(n / 10) + d
  }

  function IntToString(i: int): string
  {
    if i < 0 then "-" + NatToString(-i) else NatToString(i)
  }
}
