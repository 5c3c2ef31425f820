/** Letter case of keys and section names does not change what a configuration means. */
module ConfigCase {
  import opened Common
  import opened Config
  import opened ConfigParser
  import opened ConfigLines

  /** Alike but for letter case, and exactly alike from the first equals sign on. */
  predicate CaseVariant(a: string, b: string) {
    && |a| == |b|
    && (forall i :: 0 <= i < |a| ==> LowerChar(a[i]) == LowerChar(b[i]))
    && (forall i :: IndexOfAny(a, {'='}) <= i < |a| ==> a[i] == b[i])
  }

  /** The characters a line is cut at are no letters. */
  lemma CutsKeepTheirCase(x: char, y: char)
    requires LowerChar(x) == LowerChar(y)
    ensures IsWhitespace(x) == IsWhitespace(y)
    ensures x in {'#', ';', '=', '[', ']'} || y in {'#', ';', '=', '[', ']'} ==> x == y
  {
  }

  lemma SameIndex(a: string, b: string, chars: set<char>)
    requires |a| == |b| && (forall i :: 0 <= i < |a| ==> LowerChar(a[i]) == LowerChar(b[i]))
    requires chars <= {'#', ';', '='}
    ensures IndexOfAny(a, chars) == IndexOfAny(b, chars)
  {
    forall i | 0 <= i < |a| ensures a[i] in chars <==> b[i] in chars {
      CutsKeepTheirCase(a[i], b[i]);
    }
    IndexOfAnyIs(b, chars, IndexOfAny(a, chars));
  }

  lemma PrefixVariant(a: string, b: string, n: nat)
    requires CaseVariant(a, b) && n <= |a|
    ensures CaseVariant(a[..n], b[..n])
  {
    var i := IndexOfAny(a, {'='});
    IndexOfAnyIs(a[..n], {'='}, if i < n then i else n);
  }

  lemma SuffixVariant(a: string, b: string)
    requires CaseVariant(a, b) && |a| > 0 && a[0] != '='
    ensures CaseVariant(a[1..], b[1..])
  {
    assert IndexOfAny(a, {'='}) == 1 + IndexOfAny(a[1..], {'='});
    forall i | IndexOfAny(a[1..], {'='}) <= i < |a| - 1 ensures a[1..][i] == b[1..][i] {
      assert a[i + 1] == b[i + 1];
    }
  }

  lemma {:induction false} TrimStartVariant(a: string, b: string)
    requires CaseVariant(a, b)
    ensures CaseVariant(TrimStart(a), TrimStart(b))
    decreases |a|
  {
    if |a| > 0 {
      CutsKeepTheirCase(a[0], b[0]);
      if IsWhitespace(a[0]) {
        SuffixVariant(a, b);
        TrimStartVariant(a[1..], b[1..]);
      }
    }
  }

  lemma {:induction false} TrimEndVariant(a: string, b: string)
    requires CaseVariant(a, b)
    ensures CaseVariant(TrimEnd(a), TrimEnd(b))
    decreases |a|
  {
    if |a| > 0 {
      CutsKeepTheirCase(a[|a| - 1], b[|a| - 1]);
      if IsWhitespace(a[|a| - 1]) {
        PrefixVariant(a, b, |a| - 1);
        TrimEndVariant(a[..|a| - 1], b[..|a| - 1]);
      }
    }
  }

  lemma TrimVariant(a: string, b: string)
    requires CaseVariant(a, b)
    ensures CaseVariant(Trim(a), Trim(b))
  {
    TrimStartVariant(a, b);
    TrimEndVariant(TrimStart(a), TrimStart(b));
  }

  lemma VariantLower(a: string, b: string)
    requires CaseVariant(a, b)
    ensures Lower(a) == Lower(b)
  {
  }

  /** Lines that read alike, but for the spelling of a section nobody knows. */
  predicate SameLine(a: Line, b: Line) {
    a == b || (a.OtherHeader? && b.OtherHeader?)
  }

  lemma HeaderVariant(a: string, b: string)
    requires CaseVariant(a, b)
    ensures IsHeader(a) == IsHeader(b)
    ensures IsHeader(a) ==> Lower(HeaderName(a)) == Lower(HeaderName(b))
  {
    if |a| >= 2 {
      CutsKeepTheirCase(a[0], b[0]);
      CutsKeepTheirCase(a[|a| - 1], b[|a| - 1]);
      if IsHeader(a) {
        PrefixVariant(a, b, |a| - 1);
        SuffixVariant(a[..|a| - 1], b[..|a| - 1]);
        assert a[..|a| - 1][1..] == a[1..|a| - 1] && b[..|a| - 1][1..] == b[1..|a| - 1];
        TrimVariant(a[1..|a| - 1], b[1..|a| - 1]);
      }
    }
  }

  lemma KeyVariant(a: string, b: string)
    requires CaseVariant(a, b)
    ensures SplitKeyValue(a) == SplitKeyValue(b)
  {
    hide Trim, IsWhitespace, LowerChar;
    SameIndex(a, b, {'='});
    var i := IndexOfAny(a, {'='});
    if i < |a| {
      PrefixVariant(a, b, i);
      TrimVariant(a[..i], b[..i]);
      VariantLower(Trim(a[..i]), Trim(b[..i]));
      assert a[i + 1..] == b[i + 1..];
    }
  }

  lemma LineVariant(a: string, b: string)
    requires CaseVariant(a, b)
    ensures SameLine(LineOf(a), LineOf(b))
  {
    hide Trim, SplitKeyValue, HeaderName, IsHeader, Lower, IsWhitespace, LowerChar, IndexOfAny;
    var x, y := Trim(StripComments(a)), Trim(StripComments(b));
    assert CaseVariant(x, y) by {
      SameIndex(a, b, {'#', ';'});
      PrefixVariant(a, b, IndexOfAny(a, {'#', ';'}));
      TrimVariant(StripComments(a), StripComments(b));
    }
    assert x == "" <==> y == "";
    hide StripComments, CaseVariant;
    HeaderVariant(x, y);
    KeyVariant(x, y);
  }

  /** The same configuration, or the same error but for the name of an unknown section. */
  ghost predicate SameResult<T>(a: Result<T>, b: Result<T>) {
    a == b || (a.Err? && b.Err? && a.kind.UnsupportedSection? && b.kind.UnsupportedSection?)
  }

  lemma {:induction false} RunSameLines(c: Codecs, s: State, a: seq<Line>, b: seq<Line>)
    requires |a| == |b| && (forall i :: 0 <= i < |a| ==> SameLine(a[i], b[i]))
    ensures SameResult(Run(c, s, a), Run(c, s, b))
    decreases |a|
  {
    if |a| > 0 {
      assert SameLine(a[0], b[0]);
      assert SameResult(Step(c, s, a[0]), Step(c, s, b[0]));
      var next := Step(c, s, a[0]);
      if next.Ok? {
        hide Step;
        forall i | 0 <= i < |a| - 1 ensures SameLine(a[1..][i], b[1..][i]) {
          assert SameLine(a[i + 1], b[i + 1]);
        }
        RunSameLines(c, next.value, a[1..], b[1..]);
      }
    }
  }

  lemma LinesParseAlike(c: Codecs, a: seq<string>, b: seq<string>)
    requires |a| == |b| && (forall i :: 0 <= i < |a| ==> CaseVariant(a[i], b[i]))
    ensures SameResult(Parse(c, LinesOf(a)), Parse(c, LinesOf(b)))
  {
    forall i | 0 <= i < |a| ensures SameLine(LinesOf(a)[i], LinesOf(b)[i]) {
      LineVariant(a[i], b[i]);
    }
    hide Run, LineOf;
    RunSameLines(c, START, LinesOf(a), LinesOf(b));
  }

  // ---------------------------------------------------------------- whole texts

  /** There is an equals sign on the same line, here or before. */
  predicate InValue(s: string, i: nat)
    requires i < |s|
  {
    exists j :: 0 <= j <= i && s[j] == '=' && '\n' !in s[j..i]
  }

  /** Alike but for letter case, and exactly alike in the values. */
  predicate TextVariant(a: string, b: string) {
    && |a| == |b|
    && (forall i :: 0 <= i < |a| ==> LowerChar(a[i]) == LowerChar(b[i]))
    && (forall i :: 0 <= i < |a| && InValue(a, i) ==> a[i] == b[i])
  }

  lemma NoLetter(x: char, y: char)
    requires LowerChar(x) == LowerChar(y)
    ensures x in {'\n', '\r', BOM} || y in {'\n', '\r', BOM} ==> x == y
  {
  }

  lemma RestVariant(a: string, b: string, n: nat)
    requires TextVariant(a, b) && n <= |a|
    ensures TextVariant(a[n..], b[n..])
  {
    forall i | 0 <= i < |a| - n && InValue(a[n..], i) ensures a[n..][i] == b[n..][i] {
      var j :| 0 <= j <= i && a[n..][j] == '=' && '\n' !in a[n..][j..i];
      assert a[n..][j..i] == a[n + j..n + i];
      assert a[n + j] == '=' && InValue(a, n + i);
    }
  }

  lemma StartVariant(a: string, b: string, n: nat)
    requires TextVariant(a, b) && n <= |a| && '\n' !in a[..n]
    ensures CaseVariant(a[..n], b[..n])
  {
    var j := IndexOfAny(a[..n], {'='});
    forall i | j <= i < n ensures a[..n][i] == b[..n][i] {
      assert a[j] == '=' && a[j..i] == a[..n][j..i];
      assert InValue(a, i);
    }
  }

  lemma SameLineEnd(a: string, b: string)
    requires TextVariant(a, b)
    ensures IndexOfAny(a, {'\n'}) == IndexOfAny(b, {'\n'})
  {
    forall i | 0 <= i < |a| ensures a[i] == '\n' <==> b[i] == '\n' {
      NoLetter(a[i], b[i]);
    }
    IndexOfAnyIs(b, {'\n'}, IndexOfAny(a, {'\n'}));
  }

  lemma {:induction false} LinesVariant(a: string, b: string)
    requires TextVariant(a, b)
    ensures |Lines(a)| == |Lines(b)|
    ensures forall i :: 0 <= i < |Lines(a)| ==> CaseVariant(Lines(a)[i], Lines(b)[i])
    decreases |a|
  {
    if |a| > 0 {
      SameLineEnd(a, b);
      var i := IndexOfAny(a, {'\n'});
      hide IndexOfAny, CaseVariant, TextVariant, LowerChar;
      if i == |a| {
        StartVariant(a, b, i);
        assert a[..i] == a && b[..i] == b;
      } else {
        NoLetterAt(a, b, if i > 0 then i - 1 else 0);
        StartVariant(a, b, i);
        assert i > 0 ==> a[..i - 1] == a[..i][..i - 1];
        StartVariant(a, b, if i > 0 then i - 1 else 0);
        RestVariant(a, b, i + 1);
        LinesVariant(a[i + 1..], b[i + 1..]);
      }
    }
  }

  lemma NoLetterAt(a: string, b: string, i: nat)
    requires TextVariant(a, b) && i < |a|
    ensures a[i] == '\r' <==> b[i] == '\r'
    ensures |b| == |a|
  {
    NoLetter(a[i], b[i]);
  }

  lemma {:induction false} WithoutBomVariant(a: string, b: string)
    requires TextVariant(a, b)
    ensures TextVariant(WithoutBom(a), WithoutBom(b))
    decreases |a|
  {
    if |a| > 0 {
      NoLetter(a[0], b[0]);
      if StartsWithBom(a) {
        RestVariant(a, b, 1);
        WithoutBomVariant(a[1..], b[1..]);
      }
    }
  }

  /** The case of keys and section names is free in a text; values keep theirs. */
  lemma CaseDoesNotMatter(c: Codecs, a: string, b: string)
    requires TextVariant(a, b)
    ensures SameResult(ParseText(c, a), ParseText(c, b))
  {
    WithoutBomVariant(a, b);
    hide TextVariant, WithoutBom;
    LinesVariant(WithoutBom(a), WithoutBom(b));
    hide CaseVariant, Lines, LinesOf, Parse;
    LinesParseAlike(c, Lines(WithoutBom(a)), Lines(WithoutBom(b)));
  }
}
