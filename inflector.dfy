/**
 * The ActiveSupport string operations that a step's routing identity is built
 * from: `String#sub` and `String#gsub` with a literal pattern, `tr`,
 * `downcase`, and the inflector's `demodulize` and `underscore`.
 * Functions recurse on the head of the string, carrying the previous
 * character where a regular expression looks behind. Only ASCII letters
 * change case.
 */
module Inflector {
  import opened Wrappers

  predicate IsUpper(c: char) { 'A' <= c <= 'Z' }
  predicate IsLower(c: char) { 'a' <= c <= 'z' }
  predicate IsDigit(c: char) { '0' <= c <= '9' }
  predicate IsAlnum(c: char) { IsUpper(c) || IsLower(c) || IsDigit(c) }
  /** The regular-expression word characters, `\w`. */
  predicate IsWordChar(c: char) { IsAlnum(c) || c == '_' }

  predicate NoUpper(s: string) {
    s == [] || (!IsUpper(s[0]) && NoUpper(s[1..]))
  }

  predicate StartsWith(s: string, pat: string) {
    |pat| <= |s| && s[..|pat|] == pat
  }

  function Downcase(c: char): (d: char)
    ensures !IsUpper(d)
    ensures IsUpper(c) ==> IsLower(d)
    ensures !IsUpper(c) ==> d == c
  {
    if IsUpper(c) then (c as int + 32) as char else c
  }

  /** `String#downcase`. */
  function DowncaseAll(s: string): (r: string)
    ensures |r| == |s|
    ensures forall i :: 0 <= i < |s| ==> r[i] == Downcase(s[i])
  {
    if s == [] then [] else [Downcase(s[0])] + DowncaseAll(s[1..])
  }

  /** `String#tr(a, b)`, and `String#gsub(a, b)` for a one-character `a`. */
  function ReplaceChar(s: string, a: char, b: char): (r: string)
    ensures |r| == |s|
    ensures forall i :: 0 <= i < |s| ==> r[i] == (if s[i] == a then b else s[i])
  {
    if s == [] then [] else [if s[0] == a then b else s[0]] + ReplaceChar(s[1..], a, b)
  }

  /** `String#index(pat)`: the first index at which `pat` occurs. */
  function IndexOf(s: string, pat: string): (r: Option<nat>)
    ensures r.Some? ==> r.value <= |s| && StartsWith(s[r.value..], pat)
    ensures r.Some? ==> forall j :: 0 <= j < r.value ==> !StartsWith(s[j..], pat)
    ensures r.None? ==> forall j :: 0 <= j <= |s| ==> !StartsWith(s[j..], pat)
  {
    if StartsWith(s, pat) then Some(0)
    else if s == [] then None
    else
      match IndexOf(s[1..], pat)
      case None =>
        assert forall j :: 1 <= j <= |s| ==> s[j..] == s[1..][j - 1..];
        None
      case Some(i) =>
        assert forall j :: 1 <= j <= |s| ==> s[j..] == s[1..][j - 1..];
        Some(i + 1)
  }

  /** A suffix of `s` from `j` is the suffix of `s[k..]` from `j - k`. */
  lemma SliceOfSlice(s: string, k: nat)
    requires k <= |s|
    ensures forall j :: k <= j <= |s| ==> s[j..] == s[k..][j - k..]
  {
  }

  /** `String#rindex(pat)`: the last index at which `pat` occurs. */
  function LastIndexOf(s: string, pat: string): (r: Option<nat>)
    requires |pat| > 0
    decreases |s|
    ensures r.Some? ==> r.value <= |s| && StartsWith(s[r.value..], pat)
    ensures r.Some? ==> forall j :: r.value < j <= |s| ==> !StartsWith(s[j..], pat)
    ensures r.None? ==> forall j :: 0 <= j <= |s| ==> !StartsWith(s[j..], pat)
  {
    match IndexOf(s, pat)
    case None => None
    case Some(i) =>
      SliceOfSlice(s, i + 1);
      match LastIndexOf(s[i + 1..], pat)
      case None => Some(i)
      case Some(k) => Some(i + 1 + k)
  }

  /**
   * `String#sub(pat, rep)` with a literal pattern: only the FIRST occurrence
   * of `pat` is replaced; without one the string is returned unchanged.
   */
  function Sub(s: string, pat: string, rep: string): string {
    match IndexOf(s, pat)
    case None => s
    case Some(i) => s[..i] + rep + s[i + |pat|..]
  }

  /** `String#sub(/#{pat}\z/, '')`: removes `pat` where it ends the string. */
  function DeleteSuffix(s: string, pat: string): string {
    if |pat| <= |s| && s[|s| - |pat|..] == pat then s[..|s| - |pat|] else s
  }

  /**
   * `String#gsub(pat, rep)` with a literal, non-empty pattern: occurrences are
   * replaced left to right and do not overlap.
   */
  function Gsub(s: string, pat: string, rep: string): string
    requires |pat| > 0
    decreases |s|
  {
    if s == [] then []
    else if StartsWith(s, pat) then rep + Gsub(s[|pat|..], pat, rep)
    else [s[0]] + Gsub(s[1..], pat, rep)
  }

  /** `Array#join(sep)` on strings. */
  function Join(parts: seq<string>, sep: string): string {
    if parts == [] then []
    else if |parts| == 1 then parts[0]
    else parts[0] + sep + Join(parts[1..], sep)
  }

  /** `ActiveSupport::Inflector.demodulize`: what follows the last `::`. */
  function Demodulize(s: string): string {
    match LastIndexOf(s, "::")
    case None => s
    case Some(i) => s[i + 2..]
  }

  // ---------------------------------------------------------------------------
  // underscore
  // ---------------------------------------------------------------------------

  /** A word boundary `\b` between `prev` (none at the start) and the head of `s`. */
  predicate BoundaryBefore(prev: Option<char>, s: string) {
    (prev.Some? && IsWordChar(prev.value)) != (s != [] && IsWordChar(s[0]))
  }

  /**
   * Acronym `a` matches at the head of `s`, `prev` being the character before,
   * under the inflector's `(?:(?<=([A-Za-z\d]))|\b)(a)(?=\b|[^a-z])`.
   */
  predicate AcronymMatch(prev: Option<char>, s: string, a: string) {
    |a| > 0 && StartsWith(s, a) &&
    ((prev.Some? && IsAlnum(prev.value)) || BoundaryBefore(prev, s)) &&
    (BoundaryBefore(Some(s[|a| - 1]), s[|a|..]) || (|a| < |s| && !IsLower(s[|a|])))
  }

  /** The first acronym, in declaration order, that matches at the head of `s`. */
  function FirstAcronym(prev: Option<char>, s: string, acronyms: seq<string>): (r: Option<string>)
    ensures r.Some? ==> r.value in acronyms && AcronymMatch(prev, s, r.value)
    ensures r.None? ==> forall a :: a in acronyms ==> !AcronymMatch(prev, s, a)
  {
    if acronyms == [] then None
    else if AcronymMatch(prev, s, acronyms[0]) then Some(acronyms[0])
    else FirstAcronym(prev, s, acronyms[1..])
  }

  /**
   * The acronym pass of `underscore`: each acronym match becomes the downcased
   * acronym, preceded by `_` when a letter or digit comes before it.
   */
  function AcronymPass(prev: Option<char>, s: string, acronyms: seq<string>): string
    decreases |s|
  {
    if s == [] then []
    else match FirstAcronym(prev, s, acronyms)
      case Some(a) =>
        (if prev.Some? && IsAlnum(prev.value) then "_" else "") + DowncaseAll(a) +
        AcronymPass(Some(s[|a| - 1]), s[|a|..], acronyms)
      case None => [s[0]] + AcronymPass(Some(s[0]), s[1..], acronyms)
  }

  /**
   * `_` goes before the head of `t` under
   * `(?<=[A-Z])(?=[A-Z][a-z])|(?<=[a-z\d])(?=[A-Z])`: the last capital of a run
   * that a lower-case letter follows, or a capital after a lower-case letter or
   * a digit.
   */
  predicate WordBreak(prev: Option<char>, t: string)
    requires t != []
  {
    prev.Some? &&
    ((IsUpper(prev.value) && IsUpper(t[0]) && |t| > 1 && IsLower(t[1])) ||
     ((IsLower(prev.value) || IsDigit(prev.value)) && IsUpper(t[0])))
  }

  function SplitWords(prev: Option<char>, t: string): string
    decreases |t|
  {
    if t == [] then []
    else (if WordBreak(prev, t) then "_" else "") + [t[0]] + SplitWords(Some(t[0]), t[1..])
  }

  /** The early return of `underscore`: `/[A-Z-]|::/` does not match. */
  predicate IsUnderscored(w: string) {
    NoUpper(w) && '-' !in w && IndexOf(w, "::").None?
  }

  /** `ActiveSupport::Inflector.underscore` under the given acronym inflections. */
  function Underscore(w: string, acronyms: seq<string>): string {
    if IsUnderscored(w) then w
    else DowncaseAll(ReplaceChar(SplitWords(None, AcronymPass(None, Gsub(w, "::", "/"), acronyms)), '-', '_'))
  }

  // ---------------------------------------------------------------------------
  // Laws of the operations above
  // ---------------------------------------------------------------------------

  lemma DowncaseAllAppend(a: string, b: string)
    ensures DowncaseAll(a + b) == DowncaseAll(a) + DowncaseAll(b)
  {
    assert forall i :: 0 <= i < |a + b| ==> DowncaseAll(a + b)[i] == (DowncaseAll(a) + DowncaseAll(b))[i];
  }

  lemma ReplaceCharAppend(a: string, b: string, x: char, y: char)
    ensures ReplaceChar(a + b, x, y) == ReplaceChar(a, x, y) + ReplaceChar(b, x, y)
  {
    assert forall i :: 0 <= i < |a + b| ==> ReplaceChar(a + b, x, y)[i] == (ReplaceChar(a, x, y) + ReplaceChar(b, x, y))[i];
  }

  lemma ReplaceCharAbsent(s: string, x: char, y: char)
    requires x !in s
    ensures ReplaceChar(s, x, y) == s
  {
    assert forall i :: 0 <= i < |s| ==> ReplaceChar(s, x, y)[i] == s[i];
  }

  /** `gsub` copies a prefix in which the pattern's first character never appears. */
  lemma {:induction false} GsubSkip(x: string, t: string, pat: string, rep: string)
    requires |pat| > 0 && pat[0] !in x
    ensures Gsub(x + t, pat, rep) == x + Gsub(t, pat, rep)
  {
    if x == [] {
      assert x + t == t;
    } else {
      var s := x + t;
      assert s[0] == x[0];
      assert !StartsWith(s, pat);
      assert s[1..] == x[1..] + t;
      GsubSkip(x[1..], t, pat, rep);
      assert x == [x[0]] + x[1..];
    }
  }

  lemma GsubPattern(t: string, pat: string, rep: string)
    requires |pat| > 0
    ensures Gsub(pat + t, pat, rep) == rep + Gsub(t, pat, rep)
  {
    var s := pat + t;
    assert s[..|pat|] == pat;
    assert s[|pat|..] == t;
  }

  /** A string whose end differs from `pat` somewhere keeps its end. */
  lemma DeleteSuffixMismatch(s: string, pat: string, k: nat)
    requires k < |pat| <= |s| && s[|s| - |pat| + k] != pat[k]
    ensures DeleteSuffix(s, pat) == s
  {
    assert s[|s| - |pat|..][k] == s[|s| - |pat| + k];
  }

  lemma DeleteSuffixOf(x: string, pat: string)
    ensures DeleteSuffix(x + pat, pat) == x
  {
    var s := x + pat;
    assert s[|s| - |pat|..] == pat;
    assert s[..|s| - |pat|] == x;
  }

  /** The first occurrence, once found, is what `IndexOf` returns. */
  lemma IndexOfIs(s: string, pat: string, i: nat)
    requires i <= |s| && StartsWith(s[i..], pat)
    requires forall j :: 0 <= j < i ==> !StartsWith(s[j..], pat)
    ensures IndexOf(s, pat) == Some(i)
  {
  }

  lemma LastIndexOfIs(s: string, pat: string, i: nat)
    requires |pat| > 0
    requires i <= |s| && StartsWith(s[i..], pat)
    requires forall j :: i < j <= |s| ==> !StartsWith(s[j..], pat)
    ensures LastIndexOf(s, pat) == Some(i)
  {
  }

  /** `demodulize` keeps what follows a final `::` when no colon comes after it. */
  lemma DemodulizeLast(x: string, y: string)
    requires ':' !in y
    ensures Demodulize(x + "::" + y) == y
  {
    var s := x + "::" + y;
    assert s[|x|..][..2] == "::";
    forall j | |x| < j <= |s|
      ensures !StartsWith(s[j..], "::")
    {
      if j + 2 <= |s| {
        if j == |x| + 1 {
          assert s[j + 1] == y[0];
        } else {
          assert s[j] == y[j - |x| - 2];
        }
        assert s[j..][..2] == [s[j], s[j + 1]];
      }
    }
    LastIndexOfIs(s, "::", |x|);
    assert s[|x| + 2..] == y;
  }

  /** `demodulize` gives a tail of its argument that holds no `::`. */
  lemma DemodulizeTail(s: string)
    ensures |Demodulize(s)| <= |s| && Demodulize(s) == s[|s| - |Demodulize(s)|..]
    ensures forall j :: 0 <= j <= |Demodulize(s)| ==> !StartsWith(Demodulize(s)[j..], "::")
  {
    match LastIndexOf(s, "::")
    case None =>
    case Some(i) =>
      SliceOfSlice(s, i + 2);
  }
}
