/** The parts of JavaScript's String API that the modelled code relies on: prefix tests,
    `includes`, `indexOf`/`lastIndexOf` of one character, `trim`, `toLowerCase`, `split`,
    `replace` with a string pattern, global removal of a regular-expression marker,
    `join` and decimal printing of whole numbers. A string is a sequence of characters. */
module Strings {
  import opened Wrappers

  /** `s.startsWith(prefix)`. */
  predicate StartsWith(s: string, prefix: string) {
    |prefix| <= |s| && s[..|prefix|] == prefix
  }

  /** `s.endsWith(suffix)`. */
  predicate EndsWith(s: string, suffix: string) {
    |suffix| <= |s| && s[|s| - |suffix|..] == suffix
  }

  /** A MIME type belongs to at most one of the families "image/", "video/" and "audio/":
      their first letters differ. */
  lemma DistinctFamilies(fileType: string)
    ensures !(StartsWith(fileType, "image/") && StartsWith(fileType, "video/"))
    ensures !(StartsWith(fileType, "image/") && StartsWith(fileType, "audio/"))
    ensures !(StartsWith(fileType, "video/") && StartsWith(fileType, "audio/"))
  {
    if |fileType| >= 6 {
      assert fileType[..6][0] == fileType[0];
    }
  }

  /** `pat` occurs in `s` starting at index `i`. */
  predicate OccursAt(s: string, pat: string, i: nat) {
    i + |pat| <= |s| && s[i..i + |pat|] == pat
  }

  /** `s.includes(pat)`, scanning from the left. */
  predicate Contains(s: string, pat: string)
    decreases |s|
  {
    StartsWith(s, pat) || (s != [] && Contains(s[1..], pat))
  }

  /** The scan finds `pat` exactly when `pat` occurs somewhere in `s`. */
  lemma {:induction false} ContainsIffOccurs(s: string, pat: string)
    ensures Contains(s, pat) <==> exists i: nat :: OccursAt(s, pat, i)
    decreases |s|
  {
    if StartsWith(s, pat) {
      assert OccursAt(s, pat, 0);
    }
    if s != [] {
      ContainsIffOccurs(s[1..], pat);
      if Contains(s[1..], pat) {
        var i: nat :| OccursAt(s[1..], pat, i);
        assert s[1..][i..i + |pat|] == s[i + 1..i + 1 + |pat|];
        assert OccursAt(s, pat, i + 1);
      }
      if i: nat :| OccursAt(s, pat, i) {
        if i > 0 {
          assert s[1..][i - 1..i - 1 + |pat|] == s[i..i + |pat|];
          assert OccursAt(s[1..], pat, i - 1);
        }
      }
    } else {
      if i: nat :| OccursAt(s, pat, i) {
        assert |pat| == 0 && i == 0;
      }
    }
  }

  /** `s.indexOf(c)`: the first index holding `c`, or None for JavaScript's -1. */
  function IndexOf(s: string, c: char): (r: Option<nat>)
    ensures r.Some? ==> r.value < |s| && s[r.value] == c
    ensures r.Some? ==> forall j :: 0 <= j < r.value ==> s[j] != c
    ensures r.None? ==> forall j :: 0 <= j < |s| ==> s[j] != c
    decreases |s|
  {
    if s == [] then None
    else if s[0] == c then Some(0)
    else match IndexOf(s[1..], c)
      case None => None
      case Some(k) => Some(k + 1)
  }

  /** `s.lastIndexOf(c)`: the last index holding `c`, or None for JavaScript's -1. */
  function LastIndexOf(s: string, c: char): (r: Option<nat>)
    ensures r.Some? ==> r.value < |s| && s[r.value] == c
    ensures r.Some? ==> forall j :: r.value < j < |s| ==> s[j] != c
    ensures r.None? ==> forall j :: 0 <= j < |s| ==> s[j] != c
    decreases |s|
  {
    if s == [] then None
    else if s[|s| - 1] == c then Some(|s| - 1)
    else LastIndexOf(s[..|s| - 1], c)
  }

  /** The first index at which `pat` occurs in `s`, as `s.indexOf(pat)` finds it. */
  function FindFirst(s: string, pat: string): (r: Option<nat>)
    ensures r.Some? ==> OccursAt(s, pat, r.value)
    ensures r.Some? ==> forall j: nat :: j < r.value ==> !OccursAt(s, pat, j)
    ensures r.None? ==> forall j: nat :: !OccursAt(s, pat, j)
    decreases |s|
  {
    if StartsWith(s, pat) then Some(0)
    else if s == [] then None
    else
      var rest := FindFirst(s[1..], pat);
      assert forall j: nat :: OccursAt(s, pat, j + 1) <==> OccursAt(s[1..], pat, j) by {
        forall j: nat ensures OccursAt(s, pat, j + 1) <==> OccursAt(s[1..], pat, j) {
          if j + 1 + |pat| <= |s| {
            assert s[1..][j..j + |pat|] == s[j + 1..j + 1 + |pat|];
          }
        }
      }
      match rest
      case None =>
        assert forall j: nat :: !OccursAt(s, pat, j) by {
          forall j: nat ensures !OccursAt(s, pat, j) {
            if j > 0 {
              assert !OccursAt(s[1..], pat, j - 1);
            }
          }
        }
        None
      case Some(k) =>
        assert forall j: nat :: j < k + 1 ==> !OccursAt(s, pat, j) by {
          forall j: nat | j < k + 1 ensures !OccursAt(s, pat, j) {
            if j > 0 {
              assert !OccursAt(s[1..], pat, j - 1);
            }
          }
        }
        Some(k + 1)
  }

  /** `s.replace(pat, rep)` with a string pattern: only the first occurrence is replaced. */
  function ReplaceFirst(s: string, pat: string, rep: string): string {
    match FindFirst(s, pat)
    case None => s
    case Some(i) => s[..i] + rep + s[i + |pat|..]
  }

  /** Replacing the first occurrence of a prefix by nothing gives back what followed it,
      whatever that is: the first occurrence is the prefix itself. */
  lemma StripPrefixByReplace(pat: string, t: string)
    ensures ReplaceFirst(pat + t, pat, "") == t
  {
    assert StartsWith(pat + t, pat);
  }

  /** Replacing the first occurrence of a prefix puts the replacement in its place. */
  lemma ReplacePrefix(pat: string, t: string, rep: string)
    ensures ReplaceFirst(pat + t, pat, rep) == rep + t
  {
    assert StartsWith(pat + t, pat);
    assert (pat + t)[|pat|..] == t;
  }

  /** The characters `\s` matches and `trim` removes: the ECMAScript WhiteSpace and
      LineTerminator characters. */
  predicate IsWhitespace(c: char) {
    c == '\t' || c == '\n' || c == '\U{000B}' || c == '\U{000C}' || c == '\r' || c == ' '
    || c == '\U{00A0}' || c == '\U{1680}' || ('\U{2000}' <= c <= '\U{200A}')
    || c == '\U{2028}' || c == '\U{2029}' || c == '\U{202F}' || c == '\U{205F}'
    || c == '\U{3000}' || c == '\U{FEFF}'
  }

  /** `s.trimStart()`; also what a greedy `\s*` consumes. */
  function TrimStart(s: string): (r: string)
    ensures |r| <= |s| && r == s[|s| - |r|..]
    ensures r != [] ==> !IsWhitespace(r[0])
    ensures forall j :: 0 <= j < |s| - |r| ==> IsWhitespace(s[j])
    decreases |s|
  {
    if s != [] && IsWhitespace(s[0]) then TrimStart(s[1..]) else s
  }

  /** `s.trimEnd()`. */
  function TrimEnd(s: string): (r: string)
    ensures |r| <= |s| && r == s[..|r|]
    ensures r != [] ==> !IsWhitespace(r[|r| - 1])
    ensures forall j :: |r| <= j < |s| ==> IsWhitespace(s[j])
    decreases |s|
  {
    if s != [] && IsWhitespace(s[|s| - 1]) then TrimEnd(s[..|s| - 1]) else s
  }

  /** `s.trim()`: the result is empty exactly when every character of `s` is white space. */
  function Trim(s: string): (r: string)
    ensures |r| <= |s|
    ensures r == [] <==> forall j :: 0 <= j < |s| ==> IsWhitespace(s[j])
  {
    var t := TrimStart(s);
    var r := TrimEnd(t);
    assert t != [] ==> !IsWhitespace(t[0]);
    assert r != [] ==> !IsWhitespace(t[|r| - 1]);
    r
  }

  /** Trimming a string that neither starts nor ends with white space leaves it as it is. */
  lemma TrimUnchanged(s: string)
    requires s != [] && !IsWhitespace(s[0]) && !IsWhitespace(s[|s| - 1])
    ensures Trim(s) == s
  {
    assert TrimStart(s) == s;
  }

  /** A concatenation of three strings starts with the first, ends with the third and has
      the second between them. */
  lemma ConcatParts(a: string, b: string, c: string)
    ensures StartsWith(a + b + c, a) && EndsWith(a + b + c, c)
    ensures (a + b + c)[|a|..|a + b + c| - |c|] == b
  {
    var r := a + b + c;
    assert r[..|a|] == a;
    assert r[|r| - |c|..] == c;
  }

  /** Trimming a single white-space character in front of a string that starts with text. */
  lemma TrimStartPast(c: char, rest: string)
    requires IsWhitespace(c) && rest != [] && !IsWhitespace(rest[0])
    ensures TrimStart([c] + rest) == rest
  {
    assert ([c] + rest)[1..] == rest;
  }

  /** A string occurring in a slice occurs in the whole string. */
  lemma ContainsInSlice(s: string, i: nat, j: nat, pat: string)
    requires i <= j <= |s|
    requires Contains(s[i..j], pat)
    ensures Contains(s, pat)
  {
    ContainsIffOccurs(s[i..j], pat);
    var k: nat :| OccursAt(s[i..j], pat, k);
    var window := s[i + k..i + k + |pat|];
    assert forall t :: 0 <= t < |pat| ==> window[t] == pat[t] by {
      forall t | 0 <= t < |pat|
        ensures window[t] == pat[t]
      {
        assert window[t] == s[i + k + t] == s[i..j][k + t];
      }
    }
    assert window == pat;
    assert OccursAt(s, pat, i + k);
    ContainsIffOccurs(s, pat);
  }

  /** Removing a marker that does not occur leaves the string as it is. */
  lemma {:induction false} RemoveAllAbsent(s: string, marker: string)
    requires marker != []
    requires !Contains(s, marker)
    ensures RemoveAll(s, marker) == s
    decreases |s|
  {
    if s != [] {
      RemoveAllAbsent(s[1..], marker);
    }
  }

  /** An occurrence one place further into `s` is an occurrence in `s[1..]`. */
  lemma OccursShift(s: string, pat: string, i: nat)
    requires s != []
    ensures OccursAt(s, pat, i + 1) <==> OccursAt(s[1..], pat, i)
  {
    if i + 1 + |pat| <= |s| {
      assert s[1..][i..i + |pat|] == s[i + 1..i + 1 + |pat|];
    }
  }

  /** Where no occurrence of the marker starts inside `a`, removal leaves `a` in front. */
  lemma {:induction false} RemoveAllKeepsPrefix(a: string, b: string, marker: string)
    requires marker != []
    requires forall i: nat :: i < |a| ==> !OccursAt(a + b, marker, i)
    ensures RemoveAll(a + b, marker) == a + RemoveAll(b, marker)
    decreases |a|
  {
    if a == [] {
      assert a + b == b;
    } else {
      var s := a + b;
      assert !OccursAt(s, marker, 0);
      assert !StartsWith(s, marker) by {
        if |marker| <= |s| {
          assert s[..|marker|] == s[0..|marker|];
        }
      }
      assert RemoveAll(s, marker) == [s[0]] + RemoveAll(s[1..], marker);
      assert s[1..] == a[1..] + b;
      forall i: nat | i < |a[1..]|
        ensures !OccursAt(a[1..] + b, marker, i)
      {
        assert !OccursAt(s, marker, i + 1);
        OccursShift(s, marker, i);
      }
      RemoveAllKeepsPrefix(a[1..], b, marker);
    }
  }

  /** The string has a character that is not white space. */
  predicate HasText(s: string)
    decreases |s|
  {
    s != [] && (!IsWhitespace(s[0]) || HasText(s[1..]))
  }

  /** `!!s.trim()` is `HasText(s)`. */
  lemma {:induction false} HasTextIffTrimmed(s: string)
    ensures HasText(s) <==> Trim(s) != []
    decreases |s|
  {
    if s != [] {
      HasTextIffTrimmed(s[1..]);
      assert forall j :: 1 <= j < |s| ==> s[j] == s[1..][j - 1];
    }
  }

  /** `toLowerCase` on one character, for the ASCII letters. */
  function LowerChar(c: char): char {
    if 'A' <= c <= 'Z' then (c as int + 32) as char else c
  }

  /** `s.toLowerCase()` restricted to ASCII letters (see README for why this is exact here). */
  function ToLower(s: string): string {
    seq(|s|, i requires 0 <= i < |s| => LowerChar(s[i]))
  }

  /** A string without upper-case ASCII letters is its own lower case. */
  lemma ToLowerUnchanged(s: string)
    requires forall j :: 0 <= j < |s| ==> !('A' <= s[j] <= 'Z')
    ensures ToLower(s) == s
  {
  }

  // The global regular-expression replace of `marker` followed by `\s*` with "": every
  // occurrence of `marker`, with the white space that follows it, is removed, scanning from
  // the left without overlap.
  function RemoveAll(s: string, marker: string): string
    requires marker != []
    decreases |s|
  {
    if StartsWith(s, marker) then RemoveAll(TrimStart(s[|marker|..]), marker)
    else if s == [] then []
    else [s[0]] + RemoveAll(s[1..], marker)
  }

  /** A string that starts with the marker loses it and the white space after it. */
  lemma RemoveAllAtStart(marker: string, t: string)
    requires marker != []
    ensures RemoveAll(marker + t, marker) == RemoveAll(TrimStart(t), marker)
  {
    assert (marker + t)[..|marker|] == marker;
    assert (marker + t)[|marker|..] == t;
  }

  /** `s.split(sep)` for a one-character separator; an empty string splits into [""]. */
  function Split(s: string, sep: char): (parts: seq<string>)
    ensures |parts| >= 1
    decreases |s|
  {
    match IndexOf(s, sep)
    case None => [s]
    case Some(i) => [s[..i]] + Split(s[i + 1..], sep)
  }

  /** A string without the separator does not split. */
  lemma SplitNone(a: string, sep: char)
    requires forall j :: 0 <= j < |a| ==> a[j] != sep
    ensures Split(a, sep) == [a]
  {
  }

  /** Splitting at the first separator, when the text before it holds none. */
  lemma SplitFirst(a: string, sep: char, b: string)
    requires forall j :: 0 <= j < |a| ==> a[j] != sep
    ensures Split(a + [sep] + b, sep) == [a] + Split(b, sep)
  {
    var s := a + [sep] + b;
    assert s[|a|] == sep;
    assert forall j :: 0 <= j < |a| ==> s[j] == a[j];
    assert IndexOf(s, sep) == Some(|a|) by {
      match IndexOf(s, sep)
      case None =>
      case Some(i) =>
    }
    assert s[..|a|] == a && s[|a| + 1..] == b;
  }

  /** The text after the last separator, or the whole string when there is none. */
  function AfterLast(s: string, sep: char): string {
    match LastIndexOf(s, sep)
    case None => s
    case Some(k) => s[k + 1..]
  }

  /** A last occurrence is found by the characters that follow it. */
  lemma LastIndexOfIs(s: string, c: char, k: nat)
    requires k < |s| && s[k] == c
    requires forall j :: k < j < |s| ==> s[j] != c
    ensures LastIndexOf(s, c) == Some(k)
  {
  }

  /** Searching for the last `c` in `s` starting from one occurrence `s[i]` of it. */
  lemma LastIndexOfAfter(s: string, c: char, i: nat)
    requires i < |s| && s[i] == c
    ensures LastIndexOf(s, c) == match LastIndexOf(s[i + 1..], c)
                                 case None => Some(i)
                                 case Some(k) => Some(i + 1 + k)
  {
    var t := s[i + 1..];
    match LastIndexOf(t, c)
    case None =>
      forall j | i < j < |s| ensures s[j] != c {
        assert s[j] == t[j - i - 1];
      }
      LastIndexOfIs(s, c, i);
    case Some(k) =>
      assert s[i + 1 + k] == t[k];
      forall j | i + 1 + k < j < |s| ensures s[j] != c {
        assert s[j] == t[j - i - 1];
      }
      LastIndexOfIs(s, c, i + 1 + k);
  }

  /** `s.split(sep).pop()` is the text after the last separator. */
  lemma {:induction false} SplitLastIsAfterLast(s: string, sep: char)
    ensures var parts := Split(s, sep); parts[|parts| - 1] == AfterLast(s, sep)
    decreases |s|
  {
    match IndexOf(s, sep)
    case None =>
      assert LastIndexOf(s, sep).None?;
    case Some(i) =>
      var t := s[i + 1..];
      SplitLastIsAfterLast(t, sep);
      assert Split(s, sep) == [s[..i]] + Split(t, sep);
      AfterLastAfter(s, sep, i);
  }

  /** The text after the last separator is the same counted from an occurrence `s[i]`. */
  lemma AfterLastAfter(s: string, sep: char, i: nat)
    requires i < |s| && s[i] == sep
    ensures AfterLast(s, sep) == AfterLast(s[i + 1..], sep)
  {
    var t := s[i + 1..];
    LastIndexOfAfter(s, sep, i);
    match LastIndexOf(t, sep)
    case None =>
    case Some(k) =>
      assert t[k + 1..] == s[i + 1 + k + 1..];
  }

  /** `xs.join(sep)`. */
  function Join(xs: seq<string>, sep: string): string
    decreases |xs|
  {
    if xs == [] then ""
    else if |xs| == 1 then xs[0]
    else xs[0] + sep + Join(xs[1..], sep)
  }

  /** `ch.repeat(n)` for a one-character string. */
  function Repeat(c: char, n: nat): (r: string)
    ensures |r| == n && forall i :: 0 <= i < n ==> r[i] == c
  {
    seq(n, _ => c)
  }

  function DigitChar(d: nat): (c: char)
    requires d < 10
    ensures '0' <= c <= '9'
  {
    "0123456789"[d]
  }

  /** `n.toString()` for a whole number: its decimal digits, without leading zeros. */
  function NatToString(n: nat): (r: string)
    ensures 1 <= |r|
    ensures n >= 10 ==> 2 <= |r|
    decreases n
  {
    if n < 10 then [DigitChar(n)] else NatToString(n / 10) + [DigitChar(n % 10)]
  }

  /** A number prints as decimal digits only. */
  lemma {:induction false} NatToStringDigits(n: nat)
    ensures forall i :: 0 <= i < |NatToString(n)| ==> '0' <= NatToString(n)[i] <= '9'
    decreases n
  {
    if n >= 10 {
      NatToStringDigits(n / 10);
    }
  }

  /** Distinct numbers print as distinct strings. */
  lemma {:induction false} NatToStringInjective(a: nat, b: nat)
    requires NatToString(a) == NatToString(b)
    ensures a == b
    decreases a
  {
    if a >= 10 && b >= 10 {
      var sa, sb := NatToString(a), NatToString(b);
      assert sa[|sa| - 1] == DigitChar(a % 10) && sb[|sb| - 1] == DigitChar(b % 10);
      assert NatToString(a / 10) == sa[..|sa| - 1] == sb[..|sb| - 1] == NatToString(b / 10);
      NatToStringInjective(a / 10, b / 10);
    }
  }
}
