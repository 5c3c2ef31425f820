/** Quoting of command-line arguments, against the rules by which Windows programs split a command line. */
module Quoting {
  import opened Common

  /** `n` backslashes. */
  function Backslashes(n: nat): (r: string)
    ensures |r| == n && forall i :: 0 <= i < n ==> r[i] == '\\'
  {
    seq(n, _ => '\\')
  }

  predicate NeedsQuotes(value: string) {
    exists i :: 0 <= i < |value| && (IsWhitespace(value[i]) || value[i] == '"')
  }

  /** What follows the opening quote, with `pending` backslashes read but not yet written. */
  function Escaped(value: string, pending: nat): string {
    if |value| == 0 then Backslashes(pending * 2) + "\""
    else if value[0] == '\\' then Escaped(value[1..], pending + 1)
    else if value[0] == '"' then Backslashes(pending * 2 + 1) + "\"" + Escaped(value[1..], 0)
    else Backslashes(pending) + [value[0]] + Escaped(value[1..], 0)
  }

  function Quoted(value: string): string {
    if NeedsQuotes(value) then "\"" + Escaped(value, 0) else value
  }

  lemma Appended(a: string, b: string, c: string, whole: string)
    requires a + (b + c) == whole
    ensures (a + b) + c == whole
  {
  }

  method QuoteWindowsArg(value: string) returns (quoted: string)
    ensures quoted == Quoted(value)
  {
    if !NeedsQuotes(value) {
      return value;
    }
    quoted := "\"";
    var backslashes := 0;
    ghost var whole := "\"" + Escaped(value, 0);
    assert value[0..] == value;
    for i := 0 to |value|
      invariant quoted + Escaped(value[i..], backslashes) == whole
    {
      assert value[i..][1..] == value[i + 1..];
      ghost var rest := Escaped(value[i + 1..], 0);
      match value[i] {
        case '\\' =>
          backslashes := backslashes + 1;
        case '"' =>
          Appended(quoted, Backslashes(backslashes * 2 + 1) + "\"", rest, whole);
          quoted := quoted + (Backslashes(backslashes * 2 + 1) + "\"");
          backslashes := 0;
        case c =>
          Appended(quoted, Backslashes(backslashes) + [c], rest, whole);
          quoted := quoted + (Backslashes(backslashes) + [c]);
          backslashes := 0;
      }
    }
    assert value[|value|..] == [];
    quoted := quoted + (Backslashes(backslashes * 2) + "\"");
  }

  // ---------------------------------------------------------------- splitting

  predicate IsArgSpace(c: char) {
    c == ' ' || c == '\t'
  }

  /**
   * Split what is left of a command line.  `cur` is the argument read so far, `backslashes` the run of
   * backslashes just read, `started` whether an argument has begun, `inQuotes` whether spaces belong to it.
   * A quote after an even run toggles; after an odd run it is literal; two quotes inside quotes are one.
   */
  function Split(s: string, inQuotes: bool, backslashes: nat, cur: string, started: bool): seq<string>
    decreases |s|
  {
    if |s| == 0 then
      if started then [cur + Backslashes(backslashes)] else []
    else if s[0] == '\\' then
      Split(s[1..], inQuotes, backslashes + 1, cur, true)
    else if s[0] == '"' then
      if backslashes % 2 == 1 then
        Split(s[1..], inQuotes, 0, cur + Backslashes(backslashes / 2) + "\"", true)
      else if inQuotes && |s| > 1 && s[1] == '"' then
        Split(s[2..], inQuotes, 0, cur + Backslashes(backslashes / 2) + "\"", true)
      else
        Split(s[1..], !inQuotes, 0, cur + Backslashes(backslashes / 2), true)
    else if IsArgSpace(s[0]) && !inQuotes then
      (if started then [cur + Backslashes(backslashes)] else []) + Split(s[1..], false, 0, "", false)
    else
      Split(s[1..], inQuotes, 0, cur + Backslashes(backslashes) + [s[0]], true)
  }

  /** The arguments of a command line that has no program name. */
  function Arguments(line: string): seq<string> {
    Split(line, false, 0, "", false)
  }

  function JoinWithSpaces(args: seq<string>): string {
    if |args| == 0 then ""
    else if |args| == 1 then args[0]
    else args[0] + " " + JoinWithSpaces(args[1..])
  }

  function QuotedAll(args: seq<string>): (r: seq<string>)
    ensures |r| == |args|
  {
    Map(a => Quoted(a), args)
  }

  // ---------------------------------------------------------------- round trip

  lemma {:induction false} SplitBackslashes(n: nat, rest: string, inQuotes: bool, run: nat, cur: string, started: bool)
    ensures Split(Backslashes(n) + rest, inQuotes, run, cur, started)
            == Split(rest, inQuotes, run + n, cur, started || n > 0)
  {
    if n == 0 {
      assert Backslashes(0) + rest == rest;
    } else {
      var s := Backslashes(n) + rest;
      assert s[0] == '\\' && s[1..] == Backslashes(n - 1) + rest;
      SplitBackslashes(n - 1, rest, inQuotes, run + 1, cur, true);
    }
  }

  /** What is behind an argument: nothing, or a space. */
  predicate EndsArgument(tail: string) {
    |tail| == 0 || IsArgSpace(tail[0])
  }

  /** An odd run and a quote give half the run and a quote. */
  lemma SplitEscapedQuote(n: nat, rest: string, cur: string)
    ensures Split(Backslashes(n * 2 + 1) + ("\"" + rest), true, 0, cur, true)
            == Split(rest, true, 0, cur + Backslashes(n) + "\"", true)
  {
    SplitBackslashes(n * 2 + 1, "\"" + rest, true, 0, cur, true);
    assert ("\"" + rest)[1..] == rest;
    assert (n * 2 + 1) / 2 == n && (n * 2 + 1) % 2 == 1;
  }

  /** An even run and the closing quote give half the run. */
  lemma SplitClosingQuote(n: nat, tail: string, cur: string)
    requires EndsArgument(tail)
    ensures Split(Backslashes(n * 2) + ("\"" + tail), true, 0, cur, true)
            == Split(tail, false, 0, cur + Backslashes(n), true)
  {
    SplitBackslashes(n * 2, "\"" + tail, true, 0, cur, true);
    var s := "\"" + tail;
    assert s[1..] == tail && (|s| > 1 ==> s[1] == tail[0]);
    assert (n * 2) / 2 == n && (n * 2) % 2 == 0;
  }

  /** A run before any other character stays as it is. */
  lemma SplitPlain(n: nat, c: char, rest: string, cur: string)
    requires c != '\\' && c != '"'
    ensures Split(Backslashes(n) + ([c] + rest), true, 0, cur, true)
            == Split(rest, true, 0, cur + Backslashes(n) + [c], true)
  {
    SplitBackslashes(n, [c] + rest, true, 0, cur, true);
    assert ([c] + rest)[1..] == rest;
  }

  /** Reading an escaped value inside quotes gives the value, up to and including the closing quote. */
  lemma {:induction false} SplitEscaped(value: string, pending: nat, tail: string, cur: string)
    requires EndsArgument(tail)
    ensures Split(Escaped(value, pending) + tail, true, 0, cur, true)
            == Split(tail, false, 0, cur + (Backslashes(pending) + value), true)
    decreases |value|
  {
    if |value| == 0 {
      assert Escaped(value, pending) + tail == Backslashes(pending * 2) + ("\"" + tail);
      SplitClosingQuote(pending, tail, cur);
      assert Backslashes(pending) + value == Backslashes(pending);
    } else {
      var c, rest := value[0], value[1..];
      if c == '\\' {
        SplitEscaped(rest, pending + 1, tail, cur);
        assert Backslashes(pending) + value == Backslashes(pending + 1) + rest;
      } else if c == '"' {
        var after := Escaped(rest, 0) + tail;
        assert Escaped(value, pending) + tail == Backslashes(pending * 2 + 1) + ("\"" + after);
        SplitEscapedQuote(pending, after, cur);
        SplitEscaped(rest, 0, tail, cur + Backslashes(pending) + "\"");
        assert cur + Backslashes(pending) + "\"" + (Backslashes(0) + rest) == cur + (Backslashes(pending) + value);
      } else {
        var after := Escaped(rest, 0) + tail;
        assert Escaped(value, pending) + tail == Backslashes(pending) + ([c] + after);
        SplitPlain(pending, c, after, cur);
        SplitEscaped(rest, 0, tail, cur + Backslashes(pending) + [c]);
        assert cur + Backslashes(pending) + [c] + (Backslashes(0) + rest) == cur + (Backslashes(pending) + value);
      }
    }
  }

  lemma TailNeedsQuotes(value: string)
    requires |value| > 0
    ensures NeedsQuotes(value[1..]) ==> NeedsQuotes(value)
  {
    if NeedsQuotes(value[1..]) {
      var i :| 0 <= i < |value[1..]| && (IsWhitespace(value[1..][i]) || value[1..][i] == '"');
      assert value[i + 1] == value[1..][i];
    }
  }

  /** An argument without spaces or quotes is read as it stands. */
  lemma {:induction false} SplitUnquoted(value: string, tail: string, run: nat, cur: string, started: bool)
    requires !NeedsQuotes(value) && EndsArgument(tail) && (|value| > 0 || started)
    ensures Split(value + tail, false, run, cur, started)
            == (if |tail| == 0 then [cur + (Backslashes(run) + value)]
                else [cur + (Backslashes(run) + value)] + Arguments(tail[1..]))
    decreases |value|
  {
    if |value| == 0 {
      assert value + tail == tail;
      assert Backslashes(run) + value == Backslashes(run);
    } else {
      var rest := value[1..];
      assert (value + tail)[1..] == rest + tail;
      TailNeedsQuotes(value);
      assert !IsWhitespace(value[0]) && value[0] != '"';
      if value[0] == '\\' {
        SplitUnquoted(rest, tail, run + 1, cur, true);
        assert Backslashes(run) + value == Backslashes(run + 1) + rest;
      } else {
        SplitUnquoted(rest, tail, 0, cur + Backslashes(run) + [value[0]], true);
        assert cur + Backslashes(run) + [value[0]] + (Backslashes(0) + rest) == cur + (Backslashes(run) + value);
      }
    }
  }

  lemma SplitOpeningQuote(rest: string)
    ensures Split("\"" + rest, false, 0, "", false) == Split(rest, true, 0, "", true)
  {
    assert ("\"" + rest)[1..] == rest && "" + Backslashes(0 / 2) == "";
  }

  /** One quoted argument and what is behind it. */
  lemma SplitQuoted(value: string, tail: string)
    requires |value| > 0 && EndsArgument(tail)
    ensures Arguments(Quoted(value) + tail) == [value] + (if |tail| == 0 then [] else Arguments(tail[1..]))
  {
    hide Escaped, Split, NeedsQuotes;
    if NeedsQuotes(value) {
      var s := Quoted(value) + tail;
      assert s == "\"" + (Escaped(value, 0) + tail);
      SplitOpeningQuote(Escaped(value, 0) + tail);
      SplitEscaped(value, 0, tail, "");
      assert "" + (Backslashes(0) + value) == value;
      SplitAfterArgument(tail, value);
    } else {
      SplitUnquoted(value, tail, 0, "", false);
      assert "" + (Backslashes(0) + value) == value;
    }
  }

  lemma SplitAfterArgument(tail: string, cur: string)
    requires EndsArgument(tail)
    ensures Split(tail, false, 0, cur, true) == [cur] + (if |tail| == 0 then [] else Arguments(tail[1..]))
  {
    assert cur + Backslashes(0) == cur;
  }

  /** Splitting the joined quoted arguments gives the arguments back. */
  lemma {:induction false} QuotingRoundTrip(args: seq<string>)
    requires forall a :: a in args ==> |a| > 0
    ensures Arguments(JoinWithSpaces(QuotedAll(args))) == args
    decreases |args|
  {
    if |args| == 1 {
      SplitQuoted(args[0], "");
      assert Quoted(args[0]) + "" == JoinWithSpaces(QuotedAll(args));
    } else if |args| > 1 {
      var rest := args[1..];
      QuotingRoundTrip(rest);
      assert QuotedAll(args)[1..] == QuotedAll(rest);
      var tail := " " + JoinWithSpaces(QuotedAll(rest));
      assert JoinWithSpaces(QuotedAll(args)) == Quoted(args[0]) + tail;
      SplitQuoted(args[0], tail);
      assert tail[1..] == JoinWithSpaces(QuotedAll(rest));
    }
  }

  /** An argument list is read back exactly when no argument is empty: an empty one is written as nothing. */
  lemma RoundTripIffNoneEmpty(args: seq<string>)
    ensures Arguments(JoinWithSpaces(QuotedAll(args))) == args <==> forall a :: a in args ==> |a| > 0
  {
    if forall a :: a in args ==> |a| > 0 {
      QuotingRoundTrip(args);
    } else {
      EmptyArgumentIsLost(args);
    }
  }

  /** Leave out the empty arguments. */
  function NonEmpty(args: seq<string>): seq<string> {
    if |args| == 0 then [] else (if |args[0]| > 0 then [args[0]] else []) + NonEmpty(args[1..])
  }

  lemma {:induction false} SplitJoined(args: seq<string>)
    ensures Arguments(JoinWithSpaces(QuotedAll(args))) == NonEmpty(args)
    decreases |args|
  {
    if |args| == 1 {
      assert Quoted(args[0]) + "" == JoinWithSpaces(QuotedAll(args));
      if |args[0]| > 0 {
        SplitQuoted(args[0], "");
      }
      assert NonEmpty(args[1..]) == [];
    } else if |args| > 1 {
      var rest := args[1..];
      SplitJoined(rest);
      assert QuotedAll(args)[1..] == QuotedAll(rest);
      var tail := " " + JoinWithSpaces(QuotedAll(rest));
      assert JoinWithSpaces(QuotedAll(args)) == Quoted(args[0]) + tail;
      assert tail[1..] == JoinWithSpaces(QuotedAll(rest));
      if |args[0]| > 0 {
        SplitQuoted(args[0], tail);
      } else {
        assert Quoted(args[0]) + tail == tail;
      }
    }
  }

  lemma {:induction false} NonEmptyShortens(args: seq<string>)
    ensures |NonEmpty(args)| <= |args|
    ensures |NonEmpty(args)| == |args| ==> forall a :: a in args ==> |a| > 0
  {
    if |args| > 0 {
      NonEmptyShortens(args[1..]);
      assert args == [args[0]] + args[1..];
    }
  }

  lemma EmptyArgumentIsLost(args: seq<string>)
    requires exists a :: a in args && |a| == 0
    ensures Arguments(JoinWithSpaces(QuotedAll(args))) != args
  {
    SplitJoined(args);
    NonEmptyShortens(args);
  }

  method JoinQuoted(args: seq<string>) returns (params: string)
    ensures params == JoinWithSpaces(QuotedAll(args))
    ensures Arguments(params) == NonEmpty(args)
  {
    var quoted: seq<string> := [];
    for i := 0 to |args|
      invariant |quoted| == i && forall j :: 0 <= j < i ==> quoted[j] == Quoted(args[j])
    {
      var q := QuoteWindowsArg(args[i]);
      quoted := quoted + [q];
    }
    assert quoted == QuotedAll(args);
    SplitJoined(args);
    params := JoinWithSpaces(quoted);
  }

  // ---------------------------------------------------------------- the service's own command line

  const SERVICE_ARG := "--run-service"

  function ServiceBinaryPath(path: string): string {
    Quoted(path) + " " + SERVICE_ARG
  }

  /** The program name at the head of a command line: quotes toggle, and backslashes mean nothing. */
  function ProgramName(s: string, inQuotes: bool, cur: string): (string, string) {
    if |s| == 0 then (cur, "")
    else if s[0] == '"' then ProgramName(s[1..], !inQuotes, cur)
    else if IsArgSpace(s[0]) && !inQuotes then (cur, s[1..])
    else ProgramName(s[1..], inQuotes, cur + [s[0]])
  }

  function CommandLine(line: string): seq<string> {
    var (name, rest) := ProgramName(line, false, "");
    [name] + Arguments(rest)
  }

  /** The run of backslashes at the end of `value`, where `pending` of them came before it. */
  function TrailingBackslashes(value: string, pending: nat): nat {
    if |value| == 0 then pending
    else if value[0] == '\\' then TrailingBackslashes(value[1..], pending + 1)
    else TrailingBackslashes(value[1..], 0)
  }

  lemma {:induction false} EscapedWithoutQuotes(value: string, pending: nat)
    requires '"' !in value
    ensures Escaped(value, pending)
            == Backslashes(pending) + value + Backslashes(TrailingBackslashes(value, pending)) + "\""
    decreases |value|
  {
    if |value| == 0 {
      assert Backslashes(pending * 2) == Backslashes(pending) + value + Backslashes(pending);
    } else {
      var rest := value[1..];
      if value[0] == '\\' {
        EscapedWithoutQuotes(rest, pending + 1);
        assert Backslashes(pending + 1) + rest == Backslashes(pending) + value;
      } else {
        var end := Backslashes(TrailingBackslashes(rest, 0)) + "\"";
        EscapedWithoutQuotes(rest, 0);
        assert value[0] in value;
        assert Escaped(rest, 0) == rest + end;
        Reassociate(Backslashes(pending), value[0], rest, end);
        assert [value[0]] + rest == value;
      }
    }
  }

  lemma Reassociate(a: string, c: char, rest: string, end: string)
    ensures a + [c] + (rest + end) == a + ([c] + rest) + end
  {
  }

  lemma {:induction false} ProgramNameCopies(text: string, rest: string, inQuotes: bool, cur: string)
    requires '"' !in text && (inQuotes || forall i :: 0 <= i < |text| ==> !IsArgSpace(text[i]))
    ensures ProgramName(text + rest, inQuotes, cur) == ProgramName(rest, inQuotes, cur + text)
    decreases |text|
  {
    if |text| == 0 {
      assert text + rest == rest && cur + text == cur;
    } else {
      assert (text + rest)[1..] == text[1..] + rest && text[0] in text;
      ProgramNameCopies(text[1..], rest, inQuotes, cur + [text[0]]);
      assert cur + [text[0]] + text[1..] == cur + text;
    }
  }

  lemma ServiceArgument()
    ensures Arguments(SERVICE_ARG) == [SERVICE_ARG]
  {
    SplitUnquoted(SERVICE_ARG, "", 0, "", false);
    assert SERVICE_ARG + "" == SERVICE_ARG && "" + (Backslashes(0) + SERVICE_ARG) == SERVICE_ARG;
  }

  lemma QuotedProgram(path: string, tail: string)
    requires '"' !in path && NeedsQuotes(path) && |tail| > 0 && IsArgSpace(tail[0])
    ensures ProgramName(Quoted(path) + tail, false, "")
            == (path + Backslashes(TrailingBackslashes(path, 0)), tail[1..])
  {
    hide Escaped, NeedsQuotes;
    EscapedWithoutQuotes(path, 0);
    var name := path + Backslashes(TrailingBackslashes(path, 0));
    assert Backslashes(0) + path == path;
    var line := Quoted(path) + tail;
    var closing := "\"" + tail;
    assert line == "\"" + (name + closing);
    assert line[1..] == name + closing;
    ProgramNameCopies(name, closing, true, "");
    assert closing[1..] == tail && "" + name == name;
  }

  lemma UnquotedProgram(path: string, tail: string)
    requires '"' !in path && !NeedsQuotes(path) && |tail| > 0 && IsArgSpace(tail[0])
    ensures ProgramName(Quoted(path) + tail, false, "") == (path, tail[1..])
  {
    ProgramNameCopies(path, tail, false, "");
    assert "" + path == path;
  }

  /**
   * The service's command line names the binary and the one argument exactly when the path was not
   * quoted or does not end in a backslash: backslashes before the closing quote of a program name
   * are not halved.
   */
  lemma ServiceBinaryPathReadsBack(path: string)
    requires '"' !in path
    ensures CommandLine(ServiceBinaryPath(path)) == [path, SERVICE_ARG]
            <==> !NeedsQuotes(path) || TrailingBackslashes(path, 0) == 0
  {
    hide ProgramName, Split, NeedsQuotes, Quoted, TrailingBackslashes;
    var tail := " " + SERVICE_ARG;
    assert tail[1..] == SERVICE_ARG;
    assert ServiceBinaryPath(path) == Quoted(path) + tail;
    ServiceArgument();
    if NeedsQuotes(path) {
      QuotedProgram(path, tail);
      var n := TrailingBackslashes(path, 0);
      var line := [path + Backslashes(n), SERVICE_ARG];
      assert CommandLine(ServiceBinaryPath(path)) == line;
      assert |line[0]| == |path| + n;
      assert n == 0 ==> line[0] == path;
      assert [path, SERVICE_ARG][0] == path;
    } else {
      UnquotedProgram(path, tail);
      assert CommandLine(ServiceBinaryPath(path)) == [path, SERVICE_ARG];
    }
  }

  // ---------------------------------------------------------------- the command lines the program builds

  datatype Action = Install | Repair | StartupRepair | Remove

  function ActionText(action: Action): string {
    match action
    case Install => "install"
    case Repair => "repair"
    case StartupRepair => "startup-repair"
    case Remove => "remove"
  }

  function ManageArgs(action: Action, exe: string): seq<string> {
    ["service", ActionText(action)] + if action.Remove? || action.StartupRepair? then [] else ["--source", exe]
  }

  /** The elevated helper reads back the arguments it was started with, given that the program has a path. */
  lemma ManageCommandReadsBack(action: Action, exe: string)
    ensures var args := ManageArgs(action, exe);
      Arguments(JoinWithSpaces(QuotedAll(args))) == args <==> action.Remove? || action.StartupRepair? || exe != ""
  {
    var args := ManageArgs(action, exe);
    RoundTripIffNoneEmpty(args);
    hide Arguments, JoinWithSpaces, QuotedAll;
    if !action.Remove? && !action.StartupRepair? {
      assert args[3] == exe && exe in args;
    }
  }

  lemma {:induction false} EndsWithoutBackslash(value: string, pending: nat)
    requires |value| > 0 && value[|value| - 1] != '\\'
    ensures TrailingBackslashes(value, pending) == 0
    decreases |value|
  {
    if |value| > 1 {
      EndsWithoutBackslash(value[1..], if value[0] == '\\' then pending + 1 else 0);
    } else {
      assert value[1..] == "";
    }
  }

  /** The installed service is started with its own path and its one argument, wherever it is installed. */
  lemma InstalledServiceReadsBack(dir: string)
    requires '"' !in dir
    ensures var path := dir + "r-wg.exe"; CommandLine(ServiceBinaryPath(path)) == [path, SERVICE_ARG]
  {
    var path := dir + "r-wg.exe";
    EndsWithoutBackslash(path, 0);
    assert '"' !in "r-wg.exe";
    hide CommandLine, ServiceBinaryPath, NeedsQuotes, TrailingBackslashes;
    ServiceBinaryPathReadsBack(path);
  }
}
