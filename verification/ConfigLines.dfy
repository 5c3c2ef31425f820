/** Texts that parse alike: comments and blank lines, letter case, and lists over several lines. */
module ConfigLines {
  import opened Common
  import opened Config
  import opened ConfigParser

  // ---------------------------------------------------------------- comments and blank lines

  lemma BlankStep(c: Codecs, a: seq<Line>, b: seq<Line>)
    ensures Parse(c, a + [Blank] + b) == Parse(c, a + b)
  {
    RunConcat(c, START, a + [Blank], b);
    RunPush(c, START, a, Blank);
    RunConcat(c, START, a, b);
  }

  lemma {:induction false} IndexOfAnyIs(s: string, chars: set<char>, r: nat)
    requires r <= |s| && (forall i :: 0 <= i < r ==> s[i] !in chars) && (r < |s| ==> s[r] in chars)
    ensures IndexOfAny(s, chars) == r
  {
  }

  /** Whatever follows a comment mark is not part of the line. */
  lemma CommentsAreIgnored(line: string, mark: char, rest: string)
    requires mark == '#' || mark == ';'
    ensures LineOf(line + [mark] + rest) == LineOf(line)
  {
    var marks := {'#', ';'};
    var i := IndexOfAny(line, marks);
    var longer := line + [mark] + rest;
    assert forall j :: 0 <= j < |line| ==> longer[j] == line[j];
    assert longer[|line|] == mark;
    IndexOfAnyIs(longer, marks, i);
    assert longer[..i] == line[..i];
  }

  /** A text that is empty or ends with a newline. */
  predicate WholeLines(s: string) {
    |s| > 0 ==> s[|s| - 1] == '\n'
  }

  lemma {:induction false} LinesConcat(a: string, b: string)
    requires WholeLines(a)
    ensures Lines(a + b) == Lines(a) + Lines(b)
    decreases |a|
  {
    if |a| == 0 {
      assert a + b == b;
    } else {
      var i := IndexOfAny(a, {'\n'});
      assert i < |a|;
      assert forall j :: 0 <= j <= i ==> (a + b)[j] == a[j];
      IndexOfAnyIs(a + b, {'\n'}, i);
      assert (a + b)[..i] == a[..i];
      assert i > 0 ==> (a + b)[..i - 1] == a[..i - 1];
      assert (a + b)[i + 1..] == a[i + 1..] + b;
      LinesConcat(a[i + 1..], b);
    }
  }

  lemma OneLine(x: string)
    requires '\n' !in x
    ensures LinesOf(Lines(x + "\n")) == [LineOf(x)]
  {
    var text := x + "\n";
    assert forall j :: 0 <= j < |x| ==> text[j] == x[j];
    IndexOfAnyIs(text, {'\n'}, |x|);
    assert text[|x| + 1..] == "";
    assert text[..|x|] == x;
    if |x| > 0 && x[|x| - 1] == '\r' {
      var cut := x[..|x| - 1];
      assert text[..|x| - 1] == cut && x == cut + "\r";
      TrailingSpace(cut, '\r');
    }
  }

  lemma {:induction false} TrimStartOfSpaces(s: string, w: char)
    requires IsWhitespace(w)
    ensures TrimStart(s + [w]) == if TrimStart(s) == "" then "" else TrimStart(s) + [w]
  {
    if |s| > 0 && IsWhitespace(s[0]) {
      assert (s + [w])[1..] == s[1..] + [w];
      TrimStartOfSpaces(s[1..], w);
    } else if |s| == 0 {
      assert (s + [w])[1..] == "";
    }
  }

  lemma TrimOfSpaces(s: string, w: char)
    requires IsWhitespace(w)
    ensures Trim(s + [w]) == Trim(s)
  {
    TrimStartOfSpaces(s, w);
    var t := TrimStart(s);
    if t != "" {
      assert (t + [w])[..|t|] == t;
    }
  }

  lemma TrailingSpace(line: string, w: char)
    requires IsWhitespace(w)
    ensures LineOf(line + [w]) == LineOf(line)
  {
    assert Trim(StripComments(line + [w])) == Trim(StripComments(line)) by {
      var marks := {'#', ';'};
      var i := IndexOfAny(line, marks);
      assert forall j :: 0 <= j < |line| ==> (line + [w])[j] == line[j];
      if i < |line| {
        IndexOfAnyIs(line + [w], marks, i);
        assert (line + [w])[..i] == line[..i];
      } else {
        IndexOfAnyIs(line + [w], marks, |line| + 1);
        assert (line + [w])[..|line| + 1] == line + [w] && line[..|line|] == line;
        TrimOfSpaces(line, w);
      }
    }
    hide Trim, StripComments, SplitKeyValue, IsHeader, HeaderName, Lower;
  }

  lemma LinesOfConcat(a: seq<string>, b: seq<string>)
    ensures LinesOf(a + b) == LinesOf(a) + LinesOf(b)
  {
  }

  /** Parsing after byte-order marks have been removed. */
  function ParseBody(c: Codecs, body: string): Result<WireGuardConfig> {
    Parse(c, LinesOf(Lines(body)))
  }

  /** The line `x` in front of a text. */
  function WithLine(x: string, after: string): string {
    x + "\n" + after
  }

  lemma BlankLineInBody(c: Codecs, before: string, x: string, after: string)
    requires WholeLines(before) && '\n' !in x && LineOf(x) == Blank
    ensures ParseBody(c, before + WithLine(x, after)) == ParseBody(c, before + after)
  {
    hide Lines, LineOf, LinesOf, Parse;
    var line := x + "\n";
    OneLine(x);
    LinesConcat(before, line + after);
    LinesConcat(line, after);
    LinesConcat(before, after);
    var a, b := Lines(before), Lines(after);
    LinesOfConcat(a, Lines(line) + b);
    LinesOfConcat(Lines(line), b);
    LinesOfConcat(a, b);
    assert LinesOf(Lines(line)) == [Blank];
    assert LinesOf(a) + ([Blank] + LinesOf(b)) == LinesOf(a) + [Blank] + LinesOf(b);
    BlankStep(c, LinesOf(a), LinesOf(b));
  }

  lemma BlankLineHasNoBom(x: string)
    requires LineOf(x) == Blank
    ensures !StartsWithBom(x)
  {
    if StartsWithBom(x) {
      FirstLineIsNotBlank(x);
    }
  }

  const BOM := '\U{FEFF}'

  predicate OnlyBom(s: string) {
    forall i :: 0 <= i < |s| ==> s[i] == BOM
  }

  predicate StartsWithBom(s: string) {
    |s| > 0 && s[0] == BOM
  }

  lemma {:induction false} WithoutBomConcat(s: string, t: string)
    ensures OnlyBom(s) ==> WithoutBom(s + t) == WithoutBom(t)
    ensures !OnlyBom(s) ==> WithoutBom(s + t) == WithoutBom(s) + t
  {
    if |s| == 0 {
      assert s + t == t;
    } else if s[0] == BOM {
      assert (s + t)[1..] == s[1..] + t;
      assert s == [s[0]] + s[1..];
      WithoutBomConcat(s[1..], t);
    }
  }

  lemma {:induction false} WithoutBomKeepsWholeLines(s: string)
    requires WholeLines(s)
    ensures WholeLines(WithoutBom(s))
  {
    if StartsWithBom(s) {
      WithoutBomKeepsWholeLines(s[1..]);
    }
  }

  lemma FirstLineIsNotBlank(s: string)
    requires |s| > 0 && s[0] == BOM
    ensures LineOf(s).KeyValue? || LineOf(s).Malformed?
  {
    var stripped := StripComments(s);
    var started := TrimStart(stripped);
    assert stripped[0] == BOM;
    assert started == stripped;
    TrimEndKeepsFirst(started);
  }

  lemma {:induction false} TrimEndKeepsFirst(s: string)
    requires |s| > 0 && !IsWhitespace(s[0])
    ensures |TrimEnd(s)| > 0 && TrimEnd(s)[0] == s[0]
  {
    if IsWhitespace(s[|s| - 1]) {
      TrimEndKeepsFirst(s[..|s| - 1]);
    }
  }

  lemma StartsWithStrayBom(c: Codecs, body: string)
    requires StartsWithBom(body)
    ensures ParseBody(c, body) == Err(KeyBeforeSection)
  {
    var raw := Lines(body);
    assert |raw| > 0 && StartsWithBom(raw[0]);
    FirstLineIsNotBlank(raw[0]);
    assert LinesOf(raw)[0] == LineOf(raw[0]);
  }

  /**
   * A comment or blank line may be inserted between any two lines.  The one exception is the place in front of
   * a byte-order mark: there the mark is no longer at the start, and what follows cannot be read.
   */
  lemma BlankLinesDoNotMatter(c: Codecs, before: string, x: string, after: string)
    requires WholeLines(before) && '\n' !in x && LineOf(x) == Blank
    ensures !(before == "" && StartsWithBom(after)) ==>
      ParseText(c, before + WithLine(x, after)) == ParseText(c, before + after)
    ensures before == "" && StartsWithBom(after) ==>
      ParseText(c, before + WithLine(x, after)) == Err(KeyBeforeSection)
  {
    BlankLineHasNoBom(x);
    hide ParseBody, ParseText, LineOf, Lines, LinesOf, WithoutBom;
    var rest := WithLine(x, after);
    assert !StartsWithBom(rest);
    BlankLineInBody(c, WithoutBom(before), x, after) by {
      WithoutBomKeepsWholeLines(before);
    }
    ParsesBody(c, before + rest);
    ParsesBody(c, before + after);
    hide WithLine;
    if before == "" {
      assert "" + rest == rest && "" + after == after;
      NothingToStrip(before);
      NothingToStrip(rest);
      if StartsWithBom(after) {
        StartsWithStrayBom(c, after);
      } else {
        NothingToStrip(after);
      }
    } else {
      assert before[|before| - 1] != BOM;
      WithoutBomConcat(before, rest);
      WithoutBomConcat(before, after);
    }
  }

  lemma NothingToStrip(s: string)
    requires !StartsWithBom(s)
    ensures WithoutBom(s) == s
  {
  }

  lemma ParsesBody(c: Codecs, input: string)
    ensures ParseText(c, input) == ParseBody(c, WithoutBom(input))
  {
  }

  // ---------------------------------------------------------------- comments behind lines

  function Commented(line: string, mark: char, comment: string): string {
    line + [mark] + comment
  }

  lemma LineInBody(before: string, x: string, after: string)
    requires WholeLines(before) && '\n' !in x
    ensures LinesOf(Lines(before + WithLine(x, after))) == LinesOf(Lines(before)) + [LineOf(x)] + LinesOf(Lines(after))
  {
    hide Lines, LineOf, LinesOf;
    var line := x + "\n";
    OneLine(x);
    LinesConcat(before, line + after);
    LinesConcat(line, after);
    LinesOfConcat(Lines(before), Lines(line) + Lines(after));
    LinesOfConcat(Lines(line), Lines(after));
    assert WithLine(x, after) == line + after;
    assert LinesOf(Lines(before)) + ([LineOf(x)] + LinesOf(Lines(after))) ==
      LinesOf(Lines(before)) + [LineOf(x)] + LinesOf(Lines(after));
  }

  lemma LastLineInBody(before: string, x: string)
    requires WholeLines(before) && '\n' !in x
    ensures LinesOf(Lines(before + x)) == LinesOf(Lines(before)) + if x == "" then [] else [LineOf(x)]
  {
    LinesConcat(before, x);
    IndexOfAnyIs(x, {'\n'}, |x|);
    LinesOfConcat(Lines(before), Lines(x));
    if x != "" {
      assert Lines(x) == [x];
      assert LinesOf([x]) == [LineOf(x)];
    } else {
      assert Lines(x) == [] && LinesOf([]) == [];
    }
    hide Lines, LineOf, LinesOf;
  }

  lemma CommentInBody(c: Codecs, before: string, line: string, mark: char, comment: string, after: string)
    requires WholeLines(before) && '\n' !in line && '\n' !in comment && (mark == '#' || mark == ';')
    ensures ParseBody(c, before + WithLine(Commented(line, mark, comment), after)) ==
      ParseBody(c, before + WithLine(line, after))
    ensures ParseBody(c, before + Commented(line, mark, comment)) == ParseBody(c, before + line)
  {
    hide Lines, LineOf, LinesOf, Parse;
    var longer := Commented(line, mark, comment);
    assert '\n' !in longer;
    CommentsAreIgnored(line, mark, comment);
    LineInBody(before, longer, after);
    LineInBody(before, line, after);
    LastLineInBody(before, longer);
    LastLineInBody(before, line);
    if line == "" {
      EmptyLineIsBlank();
      BlankStep(c, LinesOf(Lines(before)), []);
      assert LinesOf(Lines(before)) + [] == LinesOf(Lines(before));
      assert LinesOf(Lines(before)) + [Blank] + [] == LinesOf(Lines(before)) + [Blank];
    }
  }

  lemma EmptyLineIsBlank()
    ensures LineOf("") == Blank
  {
  }

  /** A byte-order mark in front of a text is one in front of its first line. */
  lemma WithoutBomInLine(line: string, tail: string)
    requires |tail| > 0 && !StartsWithBom(tail)
    ensures WithoutBom(line + tail) == WithoutBom(line) + tail
  {
    WithoutBomConcat(line, tail);
    NothingToStrip(tail);
    if OnlyBom(line) {
      NothingButBom(line);
    }
  }

  lemma {:induction false} NothingButBom(s: string)
    requires OnlyBom(s)
    ensures WithoutBom(s) == ""
  {
    if |s| > 0 {
      NothingButBom(s[1..]);
    }
  }

  lemma {:induction false} WithoutBomIsPart(s: string)
    ensures forall x :: x in WithoutBom(s) ==> x in s
  {
    if StartsWithBom(s) {
      WithoutBomIsPart(s[1..]);
    }
  }

  /** A comment may be written behind any line of a text, also behind one that is not ended. */
  lemma CommentsDoNotMatter(c: Codecs, before: string, line: string, mark: char, comment: string, after: string)
    requires WholeLines(before) && '\n' !in line && '\n' !in comment && (mark == '#' || mark == ';')
    ensures ParseText(c, before + WithLine(Commented(line, mark, comment), after)) ==
      ParseText(c, before + WithLine(line, after))
    ensures ParseText(c, before + Commented(line, mark, comment)) == ParseText(c, before + line)
  {
    hide ParseBody, ParseText, LineOf, Lines, LinesOf, WithoutBom;
    var longer := Commented(line, mark, comment);
    ParsesBody(c, before + WithLine(longer, after));
    ParsesBody(c, before + WithLine(line, after));
    ParsesBody(c, before + longer);
    ParsesBody(c, before + line);
    if before == "" {
      var rest := WithoutBom(line);
      WithoutBomIsPart(line);
      CommentInBody(c, "", rest, mark, comment, after);
      CommentedFirstLine(line, mark, comment, after);
    } else {
      assert before[|before| - 1] != BOM;
      WithoutBomKeepsWholeLines(before);
      CommentInBody(c, WithoutBom(before), line, mark, comment, after);
      WithoutBomConcat(before, WithLine(longer, after));
      WithoutBomConcat(before, WithLine(line, after));
      WithoutBomConcat(before, longer);
      WithoutBomConcat(before, line);
    }
  }

  lemma CommentedFirstLine(line: string, mark: char, comment: string, after: string)
    requires mark == '#' || mark == ';'
    ensures var rest, longer := WithoutBom(line), Commented(line, mark, comment);
      && WithoutBom("" + WithLine(longer, after)) == "" + WithLine(Commented(rest, mark, comment), after)
      && WithoutBom("" + WithLine(line, after)) == "" + WithLine(rest, after)
      && WithoutBom("" + longer) == "" + Commented(rest, mark, comment)
      && WithoutBom("" + line) == "" + rest
  {
    hide WithoutBom;
    var tail := [mark] + comment;
    var ended := "\n" + after;
    assert Commented(line, mark, comment) == line + tail;
    assert Commented(WithoutBom(line), mark, comment) == WithoutBom(line) + tail;
    WithoutBomInLine(line, tail);
    WithoutBomInLine(line, tail + ended);
    WithoutBomInLine(line, ended);
    assert WithLine(line + tail, after) == line + (tail + ended);
    assert WithLine(WithoutBom(line) + tail, after) == WithoutBom(line) + (tail + ended);
    assert WithLine(line, after) == line + ended && WithLine(WithoutBom(line), after) == WithoutBom(line) + ended;
    assert forall s: string :: "" + s == s;
  }
}
