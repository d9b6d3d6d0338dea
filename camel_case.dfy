/**
 * Ruby constant names written in CamelCase — segments separated by `::`,
 * each a run of words that start with a capital followed by lower-case
 * letters — and what `underscore` and `sub('Step', '')` make of them.
 */
module CamelCase {
  import opened Wrappers
  import opened Inflector

  predicate AllLower(s: string) {
    s == [] || (IsLower(s[0]) && AllLower(s[1..]))
  }

  /** A capital followed by at least one lower-case letter: `Test`, `Go`. */
  predicate CamelWord(w: string) {
    |w| >= 2 && IsUpper(w[0]) && AllLower(w[1..])
  }

  predicate CamelWords(ws: seq<string>) {
    ws == [] || (CamelWord(ws[0]) && CamelWords(ws[1..]))
  }

  /** A constant path: one or more segments, each one or more CamelCase words. */
  predicate WellFormed(segs: seq<seq<string>>) {
    segs != [] && Segments(segs)
  }

  predicate Segments(segs: seq<seq<string>>) {
    segs == [] || (segs[0] != [] && CamelWords(segs[0]) && Segments(segs[1..]))
  }

  /** The words of a segment written together: `["Test", "Wizard"]` is `TestWizard`. */
  function Camel(ws: seq<string>): string {
    if ws == [] then [] else ws[0] + Camel(ws[1..])
  }

  /** `Camel` of each segment. The length is all the proofs need of it. */
  function Camels(segs: seq<seq<string>>): (r: seq<string>)
    ensures |r| == |segs|
  {
    if segs == [] then [] else [Camel(segs[0])] + Camels(segs[1..])
  }

  /** The constant path with segments separated by `sep`. */
  function Path(segs: seq<seq<string>>, sep: string): string {
    Join(Camels(segs), sep)
  }

  /** Each word downcased. The length is all the proofs need of it. */
  function Lowered(ws: seq<string>): (r: seq<string>)
    ensures |r| == |ws|
  {
    if ws == [] then [] else [DowncaseAll(ws[0])] + Lowered(ws[1..])
  }

  /** A segment in snake case: `["Test", "Wizard"]` is `test_wizard`. */
  function Snake(ws: seq<string>): string {
    Join(Lowered(ws), "_")
  }

  /** `Snake` of each segment. The length is all the proofs need of it. */
  function Snakes(segs: seq<seq<string>>): (r: seq<string>)
    ensures |r| == |segs|
  {
    if segs == [] then [] else [Snake(segs[0])] + Snakes(segs[1..])
  }

  function SnakePath(segs: seq<seq<string>>, sep: string): string {
    Join(Snakes(segs), sep)
  }

  /**
   * The words of a segment separated by `_`, case unchanged. The length is
   * all the proofs need of it.
   */
  function Splits(segs: seq<seq<string>>): (r: seq<string>)
    ensures |r| == |segs|
  {
    if segs == [] then [] else [Join(segs[0], "_")] + Splits(segs[1..])
  }

  /** The last letter of the last word. */
  function LastLetter(ws: seq<string>): char
    requires ws != [] && ws[|ws| - 1] != []
  {
    var w := ws[|ws| - 1];
    w[|w| - 1]
  }

  /** Every capital is followed by a lower-case letter. */
  predicate UpperThenLower(s: string) {
    forall k :: 0 <= k < |s| && IsUpper(s[k]) ==> k + 1 < |s| && IsLower(s[k + 1])
  }

  predicate Letters(s: string) {
    forall i :: 0 <= i < |s| ==> IsUpper(s[i]) || IsLower(s[i])
  }

  /** Acronyms that end in a capital, such as `DfE`. */
  predicate EndInCapital(acronyms: seq<string>) {
    forall a :: a in acronyms && |a| > 0 ==> IsUpper(a[|a| - 1])
  }

  // ---------------------------------------------------------------------------
  // Shape of the strings
  // ---------------------------------------------------------------------------

  lemma {:induction false} AllLowerAt(s: string)
    requires AllLower(s)
    ensures forall i :: 0 <= i < |s| ==> IsLower(s[i])
  {
    if s != [] {
      AllLowerAt(s[1..]);
      assert forall i :: 1 <= i < |s| ==> s[i] == s[1..][i - 1];
    }
  }

  lemma CamelWordShape(w: string)
    requires CamelWord(w)
    ensures Letters(w) && UpperThenLower(w) && IsLower(w[|w| - 1])
    ensures forall i :: 1 <= i < |w| ==> IsLower(w[i])
  {
    AllLowerAt(w[1..]);
    assert forall i :: 1 <= i < |w| ==> w[i] == w[1..][i - 1];
  }

  lemma LettersAppend(a: string, b: string)
    requires Letters(a) && Letters(b)
    ensures Letters(a + b)
  {
  }

  lemma UpperThenLowerAppend(a: string, b: string)
    requires UpperThenLower(a) && UpperThenLower(b)
    requires a == [] || !IsUpper(a[|a| - 1])
    ensures UpperThenLower(a + b)
  {
    var s := a + b;
    forall k | 0 <= k < |s| && IsUpper(s[k])
      ensures k + 1 < |s| && IsLower(s[k + 1])
    {
      if k < |a| {
        assert s[k] == a[k];
        assert k + 1 < |a|;
      } else {
        assert s[k] == b[k - |a|];
      }
    }
  }

  /** A segment's words, written together, are letters ending in a lower-case one. */
  lemma {:induction false} CamelShape(ws: seq<string>)
    requires ws != [] && CamelWords(ws)
    ensures |Camel(ws)| >= 2 && IsUpper(Camel(ws)[0]) && IsLower(Camel(ws)[|Camel(ws)| - 1])
    ensures Letters(Camel(ws)) && UpperThenLower(Camel(ws))
  {
    CamelWordShape(ws[0]);
    if |ws| > 1 {
      CamelShape(ws[1..]);
      LettersAppend(ws[0], Camel(ws[1..]));
      UpperThenLowerAppend(ws[0], Camel(ws[1..]));
    } else {
      assert Camel(ws) == ws[0] + [];
    }
  }

  /** A path separated by `/` keeps every capital followed by a lower-case letter. */
  lemma {:induction false} SlashPathShape(segs: seq<seq<string>>)
    requires WellFormed(segs)
    ensures UpperThenLower(Path(segs, "/"))
  {
    CamelShape(segs[0]);
    if |segs| == 1 {
      assert Path(segs, "/") == Camel(segs[0]);
    } else {
      SlashPathShape(segs[1..]);
      var c := Camel(segs[0]);
      UpperThenLowerAppend(c, "/");
      UpperThenLowerAppend(c + "/", Path(segs[1..], "/"));
    }
  }

  // ---------------------------------------------------------------------------
  // underscore, stage by stage
  // ---------------------------------------------------------------------------

  /** `gsub('::', '/')` turns the `::` separators into `/`. */
  lemma {:induction false} GsubPath(segs: seq<seq<string>>)
    requires WellFormed(segs)
    ensures Gsub(Path(segs, "::"), "::", "/") == Path(segs, "/")
  {
    var c := Camel(segs[0]);
    CamelShape(segs[0]);
    assert ':' !in c;
    if |segs| == 1 {
      assert Path(segs, "::") == c && Path(segs, "/") == c;
      GsubSkip(c, [], "::", "/");
      assert c + [] == c;
    } else {
      var rest := Path(segs[1..], "::");
      assert Path(segs, "::") == c + ("::" + rest);
      GsubSkip(c, "::" + rest, "::", "/");
      GsubPattern(rest, "::", "/");
      GsubPath(segs[1..]);
    }
  }

  /** No acronym ending in a capital can match where every capital is followed by a lower-case letter. */
  lemma {:induction false} AcronymPassKeeps(prev: Option<char>, s: string, acronyms: seq<string>)
    requires UpperThenLower(s) && EndInCapital(acronyms)
    ensures AcronymPass(prev, s, acronyms) == s
    decreases |s|
  {
    if s != [] {
      forall a | a in acronyms
        ensures !AcronymMatch(prev, s, a)
      {
        if |a| > 0 && StartsWith(s, a) {
          assert s[|a| - 1] == a[|a| - 1];
          assert IsLower(s[|a|]);
          assert s[|a|..][0] == s[|a|];
        }
      }
      assert FirstAcronym(prev, s, acronyms) == None;
      AcronymPassKeeps(Some(s[0]), s[1..], acronyms);
      assert s == [s[0]] + s[1..];
    }
  }

  lemma {:induction false} SplitWordsLower(prev: Option<char>, l: string, t: string)
    requires l != [] && forall i :: 0 <= i < |l| ==> IsLower(l[i])
    ensures SplitWords(prev, l + t) == l + SplitWords(Some(l[|l| - 1]), t)
    decreases |l|
  {
    var s := l + t;
    assert s[0] == l[0] && !WordBreak(prev, s);
    assert s[1..] == l[1..] + t;
    if |l| > 1 {
      SplitWordsLower(Some(l[0]), l[1..], t);
    }
    assert l == [l[0]] + l[1..];
  }

  /** What `underscore` puts before a capital that follows `prev`. */
  function Gap(prev: Option<char>): string {
    if prev.Some? && (IsLower(prev.value) || IsDigit(prev.value)) then "_" else ""
  }

  /** A word gets a `_` before it exactly when a lower-case letter or digit precedes it. */
  lemma SplitWordsWord(prev: Option<char>, w: string, t: string)
    requires CamelWord(w) && (prev.None? || !IsUpper(prev.value))
    ensures IsLower(w[|w| - 1])
    ensures SplitWords(prev, w + t) ==
      Gap(prev) +
      w + SplitWords(Some(w[|w| - 1]), t)
  {
    CamelWordShape(w);
    var s := w + t;
    var last := w[|w| - 1];
    assert s[0] == w[0] && s[1..] == w[1..] + t;
    assert WordBreak(prev, s) <==> Gap(prev) == "_";
    var gap := if WordBreak(prev, s) then "_" else "";
    assert gap == Gap(prev);
    assert SplitWords(prev, s) == gap + [w[0]] + SplitWords(Some(w[0]), w[1..] + t);
    SplitWordsLower(Some(w[0]), w[1..], t);
    assert w[1..][|w[1..]| - 1] == last;
    assert w == [w[0]] + w[1..];
    SegmentStep3(gap, [w[0]], w[1..], SplitWords(Some(last), t));
  }

  lemma SegmentStep3(a: string, b: string, c: string, d: string)
    ensures a + b + (c + d) == a + (b + c) + d
  {
  }

  lemma {:induction false} SplitWordsSegment(prev: Option<char>, ws: seq<string>, t: string)
    requires ws != [] && CamelWords(ws) && (prev.None? || !IsUpper(prev.value))
    ensures ws[|ws| - 1] != [] && IsLower(LastLetter(ws))
    ensures SplitWords(prev, Camel(ws) + t) ==
      Gap(prev) +
      Join(ws, "_") + SplitWords(Some(LastLetter(ws)), t)
    decreases |ws|
  {
    var w := ws[0];
    if |ws| == 1 {
      assert Camel(ws) == w + [] == w;
      SplitWordsWord(prev, w, t);
    } else {
      var rest := ws[1..];
      var last := w[|w| - 1];
      SplitWordsWord(prev, w, Camel(rest) + t);
      SplitWordsSegment(Some(last), rest, t);
      assert LastLetter(ws) == LastLetter(rest);
      SegmentStep(Gap(prev), w, Join(rest, "_"), SplitWords(Some(LastLetter(rest)), t));
      assert Camel(ws) + t == w + (Camel(rest) + t);
    }
  }

  lemma SegmentStep(gap: string, w: string, j: string, tail: string)
    ensures gap + w + ("_" + j + tail) == gap + (w + "_" + j) + tail
  {
  }

  /** A path is its first segment, then the separator and the rest of the path. */
  lemma PathCons(segs: seq<seq<string>>, sep: string)
    requires segs != []
    ensures |segs| == 1 ==> Path(segs, sep) == Camel(segs[0])
    ensures |segs| > 1 ==> Path(segs, sep) == Camel(segs[0]) + (sep + Path(segs[1..], sep))
  {
    var cs := Camels(segs);
    assert cs[0] == Camel(segs[0]);
    if |segs| > 1 {
      assert cs[1..] == Camels(segs[1..]);
      assert Join(cs, sep) == cs[0] + sep + Join(cs[1..], sep);
    }
  }

  lemma SnakePathCons(segs: seq<seq<string>>, sep: string)
    requires segs != []
    ensures |segs| == 1 ==> SnakePath(segs, sep) == Snake(segs[0])
    ensures |segs| > 1 ==> SnakePath(segs, sep) == Snake(segs[0]) + (sep + SnakePath(segs[1..], sep))
  {
    assert Snakes(segs)[1..] == Snakes(segs[1..]);
  }

  lemma SplitWordsSlash(prev: Option<char>, rest: string)
    ensures SplitWords(prev, "/" + rest) == "/" + SplitWords(Some('/'), rest)
  {
    assert ("/" + rest)[1..] == rest;
  }

  lemma SlashStep(j: string, tail: string)
    ensures [] + j + ("/" + tail) == j + "/" + tail
  {
  }

  lemma SplitsCons(segs: seq<seq<string>>)
    requires |segs| > 1
    ensures Join(Splits(segs), "/") == Join(segs[0], "_") + "/" + Join(Splits(segs[1..]), "/")
  {
    assert Splits(segs)[1..] == Splits(segs[1..]);
  }

  lemma {:induction false} SplitWordsPath(prev: Option<char>, segs: seq<seq<string>>)
    requires WellFormed(segs)
    requires prev.None? || !(IsUpper(prev.value) || IsLower(prev.value) || IsDigit(prev.value))
    ensures SplitWords(prev, Path(segs, "/")) == Join(Splits(segs), "/")
    decreases |segs|
  {
    PathCons(segs, "/");
    assert Gap(prev) == [];
    if |segs| == 1 {
      assert Path(segs, "/") == Camel(segs[0]) + [];
      SplitWordsSegment(prev, segs[0], []);
    } else {
      var rest := Path(segs[1..], "/");
      SplitWordsSegment(prev, segs[0], "/" + rest);
      SplitWordsSlash(Some(LastLetter(segs[0])), rest);
      SplitWordsPath(Some('/'), segs[1..]);
      SplitsCons(segs);
      SlashStep(Join(segs[0], "_"), Join(Splits(segs[1..]), "/"));
    }
  }

  /** The last two steps of `underscore`: `tr('-', '_')`, then `downcase`. */
  function Finish(x: string): string {
    DowncaseAll(ReplaceChar(x, '-', '_'))
  }

  lemma FinishAppend(a: string, b: string)
    ensures Finish(a + b) == Finish(a) + Finish(b)
  {
    ReplaceCharAppend(a, b, '-', '_');
    DowncaseAllAppend(ReplaceChar(a, '-', '_'), ReplaceChar(b, '-', '_'));
  }

  lemma FinishWord(w: string)
    requires CamelWord(w)
    ensures Finish(w) == DowncaseAll(w)
  {
    CamelWordShape(w);
    assert '-' !in w;
    ReplaceCharAbsent(w, '-', '_');
  }

  lemma FinishSeparator(c: char)
    requires c != '-' && !IsUpper(c)
    ensures Finish([c]) == [c]
  {
  }

  lemma {:induction false} LowerSegment(ws: seq<string>)
    requires ws != [] && CamelWords(ws)
    ensures Finish(Join(ws, "_")) == Snake(ws)
  {
    FinishWord(ws[0]);
    if |ws| > 1 {
      var rest := Join(ws[1..], "_");
      LowerSegment(ws[1..]);
      FinishAppend(ws[0] + "_", rest);
      FinishAppend(ws[0], "_");
      FinishSeparator('_');
    }
  }

  lemma {:induction false} LowerPath(segs: seq<seq<string>>)
    requires WellFormed(segs)
    ensures Finish(Join(Splits(segs), "/")) == SnakePath(segs, "/")
  {
    LowerSegment(segs[0]);
    var head := Join(segs[0], "_");
    if |segs| == 1 {
      assert Join(Splits(segs), "/") == head;
      assert SnakePath(segs, "/") == Snake(segs[0]);
    } else {
      var rest := Join(Splits(segs[1..]), "/");
      assert Join(Splits(segs), "/") == head + "/" + rest;
      assert SnakePath(segs, "/") == Snake(segs[0]) + "/" + SnakePath(segs[1..], "/");
      LowerPath(segs[1..]);
      FinishAppend(head + "/", rest);
      FinishAppend(head, "/");
      FinishSeparator('/');
    }
  }

  /**
   * `underscore` of a CamelCase constant path is its words down-cased and
   * joined by `_`, its segments joined by `/`, under any acronyms that end
   * in a capital.
   */
  lemma UnderscorePath(segs: seq<seq<string>>, acronyms: seq<string>)
    requires WellFormed(segs) && EndInCapital(acronyms)
    ensures Underscore(Path(segs, "::"), acronyms) == SnakePath(segs, "/")
  {
    var p := Path(segs, "::");
    CamelShape(segs[0]);
    assert p[0] == Camel(segs[0])[0];
    assert !NoUpper(p);
    GsubPath(segs);
    SlashPathShape(segs);
    AcronymPassKeeps(None, Path(segs, "/"), acronyms);
    SplitWordsPath(None, segs);
    LowerPath(segs);
    assert Underscore(p, acronyms) == Finish(SplitWords(None, AcronymPass(None, Gsub(p, "::", "/"), acronyms)));
  }

  lemma {:induction false} SnakeChars(ws: seq<string>)
    requires CamelWords(ws)
    ensures '/' !in Snake(ws)
  {
    if ws != [] {
      var d := DowncaseAll(ws[0]);
      CamelWordShape(ws[0]);
      assert forall i :: 0 <= i < |d| ==> IsLower(d[i]);
      if |ws| > 1 {
        SnakeChars(ws[1..]);
        assert Snake(ws) == d + "_" + Snake(ws[1..]);
      } else {
        assert Snake(ws) == d;
      }
    }
  }

  /** With every `/` turned into `_`, all the words are joined by `_`. */
  lemma {:induction false} SnakePathFlat(segs: seq<seq<string>>)
    requires WellFormed(segs)
    ensures ReplaceChar(SnakePath(segs, "/"), '/', '_') == SnakePath(segs, "_")
  {
    var head := Snake(segs[0]);
    SnakeChars(segs[0]);
    ReplaceCharAbsent(head, '/', '_');
    SnakePathCons(segs, "/");
    SnakePathCons(segs, "_");
    if |segs| > 1 {
      var rest := SnakePath(segs[1..], "/");
      SnakePathFlat(segs[1..]);
      ReplaceCharAppend("/", rest, '/', '_');
      ReplaceCharAppend(head, "/" + rest, '/', '_');
      assert ReplaceChar("/", '/', '_') == "_";
    }
  }

  // ---------------------------------------------------------------------------
  // Where a word can occur
  // ---------------------------------------------------------------------------

  /** No occurrence of `pat` in `x + t` starts inside `x`. */
  predicate NoneStartIn(x: string, t: string, pat: string) {
    forall j :: 0 <= j < |x| ==> !StartsWith((x + t)[j..], pat)
  }

  predicate WordsAvoid(ws: seq<string>, pat: string) {
    ws == [] || (!StartsWith(ws[0], pat) && WordsAvoid(ws[1..], pat))
  }

  /** No word of the path begins with `pat`. */
  predicate SegmentsAvoid(segs: seq<seq<string>>, pat: string) {
    segs == [] || (WordsAvoid(segs[0], pat) && SegmentsAvoid(segs[1..], pat))
  }

  lemma NoneStartInAppend(x: string, y: string, t: string, pat: string)
    requires NoneStartIn(x, y + t, pat) && NoneStartIn(y, t, pat)
    ensures NoneStartIn(x + y, t, pat)
  {
    assert (x + y) + t == x + (y + t);
    forall j | |x| <= j < |x + y|
      ensures (x + y + t)[j..] == (y + t)[j - |x|..]
    {
    }
  }

  lemma NoneStartInForeign(x: string, t: string, pat: string)
    requires |pat| > 0 && pat[0] !in x
    ensures NoneStartIn(x, t, pat)
  {
    forall j | 0 <= j < |x|
      ensures !StartsWith((x + t)[j..], pat)
    {
      assert (x + t)[j..][0] == x[j];
    }
  }

  /**
   * A CamelCase word that does not begin with the CamelCase word `pat`
   * contains no occurrence of it, even one running into what follows, when
   * what follows does not start with a lower-case letter.
   */
  lemma WordAvoids(w: string, t: string, pat: string)
    requires CamelWord(w) && CamelWord(pat) && !StartsWith(w, pat)
    requires t == [] || !IsLower(t[0])
    ensures NoneStartIn(w, t, pat)
  {
    CamelWordShape(w);
    CamelWordShape(pat);
    var s := w + t;
    forall j | 0 <= j < |w|
      ensures !StartsWith(s[j..], pat)
    {
      if j > 0 {
        assert s[j..][0] == w[j];
      } else if |pat| <= |w| {
        assert s[..|pat|] == w[..|pat|];
      } else if |pat| <= |s| {
        assert s[|w|] == t[0];
        assert IsLower(pat[|w|]);
        assert s[..|pat|][|w|] != pat[|w|];
      }
    }
  }

  lemma {:induction false} SegmentAvoids(ws: seq<string>, t: string, pat: string)
    requires CamelWords(ws) && WordsAvoid(ws, pat) && CamelWord(pat)
    requires t == [] || !IsLower(t[0])
    ensures NoneStartIn(Camel(ws), t, pat)
  {
    if ws != [] {
      var rest := Camel(ws[1..]);
      SegmentAvoids(ws[1..], t, pat);
      if ws[1..] != [] {
        CamelShape(ws[1..]);
        assert (rest + t)[0] == rest[0];
      } else {
        assert rest + t == t;
      }
      WordAvoids(ws[0], rest + t, pat);
      NoneStartInAppend(ws[0], rest, t, pat);
    }
  }

  lemma {:induction false} PathAvoids(segs: seq<seq<string>>, t: string, pat: string)
    requires WellFormed(segs) && SegmentsAvoid(segs, pat) && CamelWord(pat)
    requires t == [] || !IsLower(t[0])
    ensures NoneStartIn(Path(segs, "::"), t, pat)
  {
    var c := Camel(segs[0]);
    if |segs| == 1 {
      assert Path(segs, "::") == c;
      SegmentAvoids(segs[0], t, pat);
    } else {
      var rest := Path(segs[1..], "::");
      assert Path(segs, "::") == c + ("::" + rest);
      PathAvoids(segs[1..], t, pat);
      assert pat[0] != ':';
      NoneStartInForeign("::", rest + t, pat);
      NoneStartInAppend("::", rest, t, pat);
      SegmentAvoids(segs[0], "::" + rest + t, pat);
      assert "::" + rest + t == ("::" + rest) + t;
      NoneStartInAppend(c, "::" + rest, t, pat);
    }
  }

  /** A CamelCase path ends in a lower-case letter. */
  lemma {:induction false} PathEndsLower(segs: seq<seq<string>>, sep: string)
    requires WellFormed(segs)
    ensures |Path(segs, sep)| > 0 && IsLower(Path(segs, sep)[|Path(segs, sep)| - 1])
  {
    var c := Camel(segs[0]);
    CamelShape(segs[0]);
    if |segs| == 1 {
      assert Path(segs, sep) == c;
    } else {
      PathEndsLower(segs[1..], sep);
      assert Path(segs, sep) == c + sep + Path(segs[1..], sep);
    }
  }

  /** Without an occurrence of `pat`, `IndexOf` finds none. */
  lemma IndexOfAbsent(s: string, pat: string)
    requires |pat| > 0 && NoneStartIn(s, [], pat)
    ensures IndexOf(s, pat) == None
  {
    forall j | 0 <= j <= |s|
      ensures !StartsWith(s[j..], pat)
    {
      if j < |s| {
        assert s + [] == s;
      }
    }
  }

  /** `sub` removes the first occurrence of `pat`, and only that one. */
  lemma SubFirst(q: string, pat: string, t: string)
    requires |pat| > 0 && NoneStartIn(q, pat + t, pat)
    ensures Sub(q + pat + t, pat, []) == q + t
  {
    var s := q + pat + t;
    assert s == q + (pat + t);
    assert s[|q|..] == pat + t;
    assert (pat + t)[..|pat|] == pat;
    IndexOfIs(s, pat, |q|);
    assert s[..|q|] == q;
    assert s[|q| + |pat|..] == t;
  }

  /** The last segment of a path comes after its last separator. */
  lemma {:induction false} PathSnoc(segs: seq<seq<string>>, sep: string)
    requires |segs| > 1
    ensures Path(segs, sep) == Path(segs[..|segs| - 1], sep) + sep + Camel(segs[|segs| - 1])
  {
    var init := segs[..|segs| - 1];
    if |segs| == 2 {
      assert Path(init, sep) == Camel(segs[0]);
      assert Path(segs[1..], sep) == Camel(segs[1]);
    } else {
      PathSnoc(segs[1..], sep);
      assert segs[1..][..|segs| - 2] == init[1..];
      assert Path(init, sep) == Camel(segs[0]) + sep + Path(init[1..], sep);
    }
  }

  lemma {:induction false} SegmentAt(segs: seq<seq<string>>, i: nat)
    requires Segments(segs) && i < |segs|
    ensures segs[i] != [] && CamelWords(segs[i])
  {
    if i > 0 {
      SegmentAt(segs[1..], i - 1);
    }
  }

  /** `demodulize` of a CamelCase path is its last segment. */
  lemma DemodulizePath(segs: seq<seq<string>>)
    requires WellFormed(segs)
    ensures Demodulize(Path(segs, "::")) == Camel(segs[|segs| - 1])
  {
    var last := Camel(segs[|segs| - 1]);
    SegmentAt(segs, |segs| - 1);
    CamelShape(segs[|segs| - 1]);
    assert ':' !in last by {
      forall i | 0 <= i < |last| ensures last[i] != ':' {
      }
    }
    if |segs| == 1 {
      assert Path(segs, "::") == last;
      forall j | 0 <= j <= |last|
        ensures !StartsWith(last[j..], "::")
      {
        if j < |last| {
          assert last[j..][0] == last[j];
        }
      }
    } else {
      PathSnoc(segs, "::");
      DemodulizeLast(Path(segs[..|segs| - 1], "::"), last);
    }
  }

  // ---------------------------------------------------------------------------
  // Facts about particular names, established word by word
  // ---------------------------------------------------------------------------

  lemma {:induction false} AllLowerOf(s: string)
    requires forall i :: 0 <= i < |s| ==> IsLower(s[i])
    ensures AllLower(s)
  {
    if s != [] {
      AllLowerOf(s[1..]);
    }
  }

  /** A capital followed by lower-case letters is a word, down-cased at its head only. */
  lemma WordOf(w: string, lower: string)
    requires |w| >= 2 && IsUpper(w[0]) && forall i :: 1 <= i < |w| ==> IsLower(w[i])
    requires lower == [Downcase(w[0])] + w[1..]
    ensures CamelWord(w) && DowncaseAll(w) == lower
  {
    AllLowerOf(w[1..]);
    assert DowncaseAll(w) == [Downcase(w[0])] + DowncaseAll(w[1..]);
  }

  /** A string that differs from `pat` at some index does not start with it. */
  lemma NotPrefixAt(s: string, pat: string, i: nat)
    requires i < |s| && i < |pat| && s[i] != pat[i]
    ensures !StartsWith(s, pat)
  {
    if |pat| <= |s| {
      assert s[..|pat|][i] == s[i];
    }
  }

  /** A phrase is its first word followed by the rest. */

  lemma CamelCons(w: string, ws: seq<string>)
    ensures Camel([w] + ws) == w + Camel(ws)
  {
    assert ([w] + ws)[1..] == ws;
  }

  lemma JoinCons(x: string, xs: seq<string>, sep: string)
    requires xs != []
    ensures Join([x] + xs, sep) == x + (sep + Join(xs, sep))
  {
    assert ([x] + xs)[1..] == xs;
  }

  lemma SnakeCons(w: string, ws: seq<string>)
    requires ws != []
    ensures Snake([w] + ws) == DowncaseAll(w) + ("_" + Snake(ws))
  {
    assert Lowered([w] + ws) == [DowncaseAll(w)] + Lowered(ws) by {
      assert ([w] + ws)[1..] == ws;
    }
    JoinCons(DowncaseAll(w), Lowered(ws), "_");
  }

  /** Words one by one make a list of words. */
  lemma {:induction false} WordsAll(ws: seq<string>)
    requires forall i :: 0 <= i < |ws| ==> CamelWord(ws[i])
    ensures CamelWords(ws)
  {
    if ws != [] {
      WordsAll(ws[1..]);
    }
  }

  /** Words that each avoid `pat` make a list that avoids it. */
  lemma {:induction false} AvoidAll(ws: seq<string>, pat: string)
    requires forall i :: 0 <= i < |ws| ==> !StartsWith(ws[i], pat)
    ensures WordsAvoid(ws, pat)
  {
    if ws != [] {
      AvoidAll(ws[1..], pat);
    }
  }

  /*
   * Phrases of two to six words, written out: what they join to and their
   * snake case.
   */

  lemma Camel2(a: string, b: string)
    ensures Camel([a, b]) == a + b
  {
    CamelCons(b, []);
    assert [b][1..] == [];
    CamelCons(a, [b]);
    assert [a] + [b] == [a, b];
  }

  lemma Snake2(a: string, b: string)
    ensures Snake([a, b]) == DowncaseAll(a) + ("_" + DowncaseAll(b))
  {
    assert [b][1..] == [];
    SnakeCons(a, [b]);
    assert [a] + [b] == [a, b];
  }

  lemma Camel3(a: string, b: string, c: string)
    ensures Camel([a, b, c]) == a + (b + c)
  {
    Camel2(b, c);
    CamelCons(a, [b, c]);
    assert [a] + [b, c] == [a, b, c];
  }

  lemma Snake3(a: string, b: string, c: string)
    ensures Snake([a, b, c]) == DowncaseAll(a) + ("_" + (DowncaseAll(b) + ("_" + DowncaseAll(c))))
  {
    Snake2(b, c);
    SnakeCons(a, [b, c]);
    assert [a] + [b, c] == [a, b, c];
  }

  lemma Camel4(a: string, b: string, c: string, d: string)
    ensures Camel([a, b, c, d]) == a + (b + (c + d))
  {
    Camel3(b, c, d);
    CamelCons(a, [b, c, d]);
    assert [a] + [b, c, d] == [a, b, c, d];
  }

  lemma Snake4(a: string, b: string, c: string, d: string)
    ensures Snake([a, b, c, d]) == DowncaseAll(a) + ("_" + (DowncaseAll(b) + ("_" + (DowncaseAll(c) + ("_" + DowncaseAll(d))))))
  {
    Snake3(b, c, d);
    SnakeCons(a, [b, c, d]);
    assert [a] + [b, c, d] == [a, b, c, d];
  }

  lemma Camel5(a: string, b: string, c: string, d: string, e: string)
    ensures Camel([a, b, c, d, e]) == a + (b + (c + (d + e)))
  {
    Camel4(b, c, d, e);
    CamelCons(a, [b, c, d, e]);
    assert [a] + [b, c, d, e] == [a, b, c, d, e];
  }

  lemma Snake5(a: string, b: string, c: string, d: string, e: string)
    ensures Snake([a, b, c, d, e]) == DowncaseAll(a) + ("_" + (DowncaseAll(b) + ("_" + (DowncaseAll(c) + ("_" + (DowncaseAll(d) + ("_" + DowncaseAll(e))))))))
  {
    Snake4(b, c, d, e);
    SnakeCons(a, [b, c, d, e]);
    assert [a] + [b, c, d, e] == [a, b, c, d, e];
  }

  lemma Camel6(a: string, b: string, c: string, d: string, e: string, f: string)
    ensures Camel([a, b, c, d, e, f]) == a + (b + (c + (d + (e + f))))
  {
    Camel5(b, c, d, e, f);
    CamelCons(a, [b, c, d, e, f]);
    assert [a] + [b, c, d, e, f] == [a, b, c, d, e, f];
  }

  lemma Snake6(a: string, b: string, c: string, d: string, e: string, f: string)
    ensures Snake([a, b, c, d, e, f]) == DowncaseAll(a) + ("_" + (DowncaseAll(b) + ("_" + (DowncaseAll(c) + ("_" + (DowncaseAll(d) + ("_" + (DowncaseAll(e) + ("_" + DowncaseAll(f))))))))))
  {
    Snake5(b, c, d, e, f);
    SnakeCons(a, [b, c, d, e, f]);
    assert [a] + [b, c, d, e, f] == [a, b, c, d, e, f];
  }
}
