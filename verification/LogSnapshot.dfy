/** The log snapshot sent over IPC: a redacted tail of the log, limited in lines and in UTF-8 bytes. */
module LogSnapshot {
  import opened Common
  import opened Redaction

  const MAX_LOG_SNAPSHOT_LINES := 500
  const MAX_LOG_SNAPSHOT_BYTES := 256 * 1024
  const MARKER := "...<truncated>"

  /** UTF-8 bytes of a character. */
  function CharSize(c: char): (r: nat)
    ensures 1 <= r <= 4
  {
    var code := c as int;
    if code < 0x80 then 1 else if code < 0x800 then 2 else if code < 0x10000 then 3 else 4
  }

  function Size(s: string): nat {
    if |s| == 0 then 0 else Size(s[..|s| - 1]) + CharSize(s[|s| - 1])
  }

  function TotalSize(lines: seq<string>): nat {
    if |lines| == 0 then 0 else Size(lines[0]) + TotalSize(lines[1..])
  }

  lemma {:induction false} SizeConcat(a: string, b: string)
    ensures Size(a + b) == Size(a) + Size(b)
  {
    if |b| == 0 {
      assert a + b == a;
    } else {
      assert (a + b)[..|a + b| - 1] == a + b[..|b| - 1];
      SizeConcat(a, b[..|b| - 1]);
    }
  }

  /** A longer prefix is no smaller. */
  lemma SizeOfPrefix(s: string, n: nat)
    requires n <= |s|
    ensures Size(s[..n]) <= Size(s)
  {
    SizeConcat(s[..n], s[n..]);
    assert s == s[..n] + s[n..];
  }

  lemma {:induction false} AsciiSize(s: string)
    requires forall i :: 0 <= i < |s| ==> s[i] as int < 0x80
    ensures Size(s) == |s|
  {
    if |s| > 0 {
      AsciiSize(s[..|s| - 1]);
    }
  }

  lemma MarkerSize(n: nat)
    requires n <= |MARKER|
    ensures Size(MARKER[..n]) == n && MARKER[..|MARKER|] == MARKER
  {
    AsciiSize(MARKER[..n]);
  }

  /** `out` is the longest prefix of whole characters that leaves room for the marker, and the marker. */
  ghost predicate IsTruncation(line: string, maxBytes: nat, out: string) {
    if Size(line) <= maxBytes then out == line
    else if maxBytes <= |MARKER| then out == MARKER[..maxBytes]
    else exists n: nat :: LongestPrefix(line, maxBytes - |MARKER|, n) && out == line[..n] + MARKER
  }

  ghost predicate LongestPrefix(line: string, maxBytes: nat, n: nat) {
    && n <= |line| && Size(line[..n]) <= maxBytes
    && forall m :: n < m <= |line| ==> Size(line[..m]) > maxBytes
  }

  method TruncateToByteLimit(line: string, maxBytes: nat) returns (out: string)
    ensures IsTruncation(line, maxBytes, out)
    ensures Size(out) <= maxBytes
  {
    if Size(line) <= maxBytes {
      return line;
    }
    if maxBytes <= |MARKER| {
      MarkerSize(maxBytes);
      return MARKER[..maxBytes];
    }
    var contentLimit := maxBytes - |MARKER|;
    var end, bytes, i := 0, 0, 0;
    while i < |line|
      invariant 0 <= i <= |line| && end == i && bytes == Size(line[..i]) <= contentLimit
    {
      assert line[..i + 1][..i] == line[..i];
      var next := bytes + CharSize(line[i]);
      if next > contentLimit {
        break;
      }
      bytes := next;
      i := i + 1;
      end := i;
    }
    forall m | end < m <= |line| ensures Size(line[..m]) > contentLimit {
      assert line[..m][..end + 1] == line[..end + 1];
      assert line[..end + 1][..end] == line[..end];
      SizeOfPrefix(line[..m], end + 1);
    }
    assert line[..|line|] == line;
    assert LongestPrefix(line, contentLimit, end);
    MarkerSize(|MARKER|);
    SizeConcat(line[..end], MARKER);
    return line[..end] + MARKER;
  }

  /** The lines from `k` on fit, and no longer suffix does. */
  ghost predicate LongestSuffix(lines: seq<string>, maxBytes: nat, k: nat) {
    && k <= |lines| && TotalSize(lines[k..]) <= maxBytes
    && forall j :: 0 <= j < k ==> TotalSize(lines[j..]) > maxBytes
  }

  lemma {:induction false} LongerSuffixIsBigger(lines: seq<string>, j: nat, k: nat)
    requires j <= k <= |lines|
    ensures TotalSize(lines[k..]) <= TotalSize(lines[j..])
    decreases k - j
  {
    if j < k {
      assert lines[j..][1..] == lines[j + 1..];
      LongerSuffixIsBigger(lines, j + 1, k);
    }
  }

  /** What a byte-limited snapshot keeps. */
  ghost predicate IsLimited(lines: seq<string>, maxBytes: nat, kept: seq<string>) {
    if maxBytes == 0 then kept == []
    else if |lines| > 0 && Size(lines[|lines| - 1]) > maxBytes then
      |kept| == 1 && IsTruncation(lines[|lines| - 1], maxBytes, kept[0])
    else
      exists k: nat :: LongestSuffix(lines, maxBytes, k) && kept == lines[k..]
  }

  function Reversed(s: seq<string>): (r: seq<string>)
    ensures |r| == |s|
  {
    seq(|s|, i requires 0 <= i < |s| => s[|s| - 1 - i])
  }

  /** Keep the last lines that fit; where not even the last one does, keep that one cut short. */
  method LimitSnapshotBytes(lines: seq<string>, maxBytes: nat) returns (kept: seq<string>)
    ensures IsLimited(lines, maxBytes, kept)
    ensures TotalSize(kept) <= maxBytes
    ensures |kept| <= |lines|
  {
    if maxBytes == 0 {
      return [];
    }
    var bytes, k := 0, |lines|;
    kept := [];
    while k > 0
      invariant 0 <= k <= |lines| && bytes == TotalSize(lines[k..]) <= maxBytes
      invariant |kept| == |lines| - k && forall i :: 0 <= i < |kept| ==> kept[i] == lines[|lines| - 1 - i]
    {
      var line := lines[k - 1];
      assert lines[k - 1..][1..] == lines[k..];
      if bytes + Size(line) <= maxBytes {
        bytes := bytes + Size(line);
        kept := kept + [line];
        k := k - 1;
        continue;
      }
      if |kept| == 0 {
        var cut := TruncateToByteLimit(line, maxBytes);
        kept := [cut];
        assert TotalSize(kept) == Size(cut);
        assert Reversed(kept) == kept;
        return Reversed(kept);
      }
      break;
    }
    forall j | 0 <= j < k ensures TotalSize(lines[j..]) > maxBytes {
      assert lines[k - 1..][1..] == lines[k..];
      LongerSuffixIsBigger(lines, j, k - 1);
    }
    if |lines| > 0 && k < |lines| {
      assert lines[|lines| - 1..][1..] == [];
      LongerSuffixIsBigger(lines, k, |lines| - 1);
    }
    assert Reversed(kept) == lines[k..];
    assert LongestSuffix(lines, maxBytes, k);
    kept := Reversed(kept);
  }

  /** `tail` is the end of the log, line by line redacted. */
  ghost predicate RedactedTail(log: seq<string>, tail: seq<string>) {
    && |tail| == (if |log| > MAX_LOG_SNAPSHOT_LINES then MAX_LOG_SNAPSHOT_LINES else |log|)
    && forall i :: 0 <= i < |tail| ==> IsRedactionOf(log[|log| - |tail| + i], tail[i])
  }

  method RedactLines(lines: seq<string>) returns (redacted: seq<string>)
    ensures |redacted| == |lines| && forall i :: 0 <= i < |lines| ==> IsRedactionOf(lines[i], redacted[i])
  {
    hide IsRedactionOf, CleanForKeys;
    redacted := [];
    for i := 0 to |lines|
      invariant |redacted| == i && forall j :: 0 <= j < i ==> IsRedactionOf(lines[j], redacted[j])
    {
      var line := RedactSensitiveLogLine(lines[i]);
      redacted := redacted + [line];
    }
  }

  /** The last lines of the log, redacted and limited. */
  method SnapshotForIpc(log: seq<string>) returns (kept: seq<string>)
    ensures |kept| <= MAX_LOG_SNAPSHOT_LINES && TotalSize(kept) <= MAX_LOG_SNAPSHOT_BYTES
    ensures exists tail :: RedactedTail(log, tail) && IsLimited(tail, MAX_LOG_SNAPSHOT_BYTES, kept)
  {
    hide IsRedactionOf, IsLimited, TotalSize;
    var lines := log;
    if |lines| > MAX_LOG_SNAPSHOT_LINES {
      lines := lines[|lines| - MAX_LOG_SNAPSHOT_LINES..];
    }
    var redacted := RedactLines(lines);
    assert RedactedTail(log, redacted);
    kept := LimitSnapshotBytes(redacted, MAX_LOG_SNAPSHOT_BYTES);
  }
}
