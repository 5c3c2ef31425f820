/** Redaction of sensitive values in a log line. */
module Redaction {
  import opened Common

  const MARK := "<redacted>"

  /** Keys are made of lower-case letters and underscores, and their first letter does not come back. */
  predicate IsKey(key: string) {
    && |key| > 0
    && (forall t :: 0 <= t < |key| ==> 'a' <= key[t] <= 'z' || key[t] == '_')
    && (forall t :: 0 < t < |key| ==> key[t] != key[0])
  }

  type SensitiveKey = key: string | IsKey(key) witness "token"

  const SENSITIVE_KEYS: seq<SensitiveKey> :=
    ["privatekey", "private_key", "presharedkey", "preshared_key", "password", "token", "auth"]

  // ---------------------------------------------------------------- what a line shows

  predicate IsSeparator(c: char) {
    c == '=' || c == ':'
  }

  /** The characters that end a value. */
  predicate IsDelimiter(c: char) {
    IsWhitespace(c) || c == ',' || c == ';'
  }

  /** The characters a key must not follow. */
  predicate IsKeyChar(c: char) {
    'a' <= c <= 'z' || 'A' <= c <= 'Z' || '0' <= c <= '9' || c == '_' || c == '-'
  }

  /** The key stands at `i`, in any case. */
  predicate KeyAt(s: string, key: SensitiveKey, i: int) {
    && 0 <= i && i + |key| <= |s|
    && forall t :: 0 <= t < |key| ==> LowerChar(s[i + t]) == key[t]
  }

  predicate LeftBounded(s: string, i: int)
    requires 0 <= i <= |s|
  {
    i == 0 || !IsKeyChar(s[i - 1])
  }

  predicate AllWhitespace(s: string, from: int, to: int)
    requires 0 <= from && to <= |s|
  {
    forall t :: from <= t < to ==> IsWhitespace(s[t])
  }

  /**
   * The key stands at `i`, bounded on its left; after optional spaces comes a separator at `e`, and
   * after optional spaces the value starts at `v`.
   */
  predicate ValueAt(s: string, key: SensitiveKey, i: int, e: int, v: int) {
    && KeyAt(s, key, i) && LeftBounded(s, i)
    && i + |key| <= e < v <= |s|
    && AllWhitespace(s, i + |key|, e) && IsSeparator(s[e]) && AllWhitespace(s, e + 1, v)
    && (v < |s| ==> !IsWhitespace(s[v]))
  }

  /** Exactly the mark stands at `v`, and then a delimiter or the end. */
  predicate RedactedAt(s: string, v: int) {
    && 0 <= v && v + |MARK| <= |s|
    && s[v..v + |MARK|] == MARK
    && (v + |MARK| < |s| ==> IsDelimiter(s[v + |MARK|]))
  }

  /** Every value of the key, from position `from` on, is redacted. */
  ghost predicate CleanFrom(s: string, key: SensitiveKey, from: int) {
    forall i, e, v :: from <= i && ValueAt(s, key, i, e, v) ==> RedactedAt(s, v)
  }

  ghost predicate Clean(s: string, key: SensitiveKey) {
    CleanFrom(s, key, 0)
  }

  // ---------------------------------------------------------------- the scan

  /** First position at or after `i` that is not whitespace. */
  function SkipWhitespace(s: string, i: nat): (r: nat)
    requires i <= |s|
    ensures i <= r <= |s| && AllWhitespace(s, i, r) && (r < |s| ==> !IsWhitespace(s[r]))
    decreases |s| - i
  {
    if i < |s| && IsWhitespace(s[i]) then SkipWhitespace(s, i + 1) else i
  }

  /** First delimiter at or after `i`, or the end. */
  function ValueEnd(s: string, i: nat): (r: nat)
    requires i <= |s|
    ensures i <= r <= |s| && (r < |s| ==> IsDelimiter(s[r])) && forall t :: i <= t < r ==> !IsDelimiter(s[t])
    decreases |s| - i
  {
    if i < |s| && !IsDelimiter(s[i]) then ValueEnd(s, i + 1) else i
  }

  /** First occurrence of the key at or after `cursor`. */
  function Find(s: string, key: SensitiveKey, cursor: nat): (r: Option<nat>)
    requires cursor <= |s|
    ensures r.Some? ==> cursor <= r.value && KeyAt(s, key, r.value)
    ensures forall t :: cursor <= t && KeyAt(s, key, t) ==> r.Some? && r.value <= t
    decreases |s| - cursor
  {
    if KeyAt(s, key, cursor) then Some(cursor)
    else if cursor == |s| then None
    else Find(s, key, cursor + 1)
  }

  /** Where the value starts, if the key at `i` has one. */
  function ValueStart(s: string, key: SensitiveKey, i: nat): (r: Option<nat>)
    requires KeyAt(s, key, i)
    ensures r.Some? ==> i + |key| < r.value <= |s|
  {
    var e := SkipWhitespace(s, i + |key|);
    if !LeftBounded(s, i) || e == |s| || !IsSeparator(s[e]) then None
    else Some(SkipWhitespace(s, e + 1))
  }

  /** The next piece that is written, and where reading goes on; nothing when no key is left. */
  function Piece(s: string, key: SensitiveKey, cursor: nat): (r: Option<(string, nat)>)
    requires cursor <= |s|
    ensures r.Some? ==> cursor < r.value.1 <= |s|
  {
    var found := Find(s, key, cursor);
    if found.None? then None
    else
      var v := ValueStart(s, key, found.value);
      if v.None? then Some((s[cursor..found.value + |key|], found.value + |key|))
      else Some((s[cursor..v.value] + MARK, ValueEnd(s, v.value)))
  }

  /** What is written for the line from `cursor` on. */
  function Redacted(s: string, key: SensitiveKey, cursor: nat): string
    requires cursor <= |s|
    decreases |s| - cursor
  {
    var piece := Piece(s, key, cursor);
    if piece.None? then s[cursor..] else piece.value.0 + Redacted(s, key, piece.value.1)
  }

  lemma KeyFits(s: string, key: SensitiveKey, i: int)
    requires KeyAt(s, key, i)
    ensures 0 <= i && i + |key| <= |s|
  {
  }

  method SkipSpaces(line: string, from: nat) returns (r: nat)
    requires from <= |line|
    ensures r == SkipWhitespace(line, from)
  {
    r := from;
    while r < |line| && IsWhitespace(line[r])
      invariant from <= r <= |line| && SkipWhitespace(line, from) == SkipWhitespace(line, r)
    {
      r := r + 1;
    }
  }

  lemma WriteOn(s: string, key: SensitiveKey, cursor: nat, out: string, piece: string, next: nat, whole: string)
    requires cursor <= |s| && Piece(s, key, cursor) == Some((piece, next))
    requires out + Redacted(s, key, cursor) == whole
    ensures next <= |s| && (out + piece) + Redacted(s, key, next) == whole
  {
    assert out + (piece + Redacted(s, key, next)) == (out + piece) + Redacted(s, key, next);
  }

  /** One pass over the line, copying it up to each value and writing the mark for the value. */
  method RedactKeyValue(line: string, key: SensitiveKey) returns (out: string)
    ensures out == Redacted(line, key, 0)
  {
    hide KeyAt, LeftBounded, Redacted;
    ghost var whole := Redacted(line, key, 0);
    var cursor := 0;
    out := [];
    assert out + whole == whole;
    while true
      invariant 0 <= cursor <= |line|
      invariant out + Redacted(line, key, cursor) == whole
      decreases |line| - cursor
    {
      var found := Find(line, key, cursor);
      if found.None? {
        break;
      }
      var keyStart := found.value;
      KeyFits(line, key, keyStart);
      var keyEnd := keyStart + |key|;
      var separator := SkipSpaces(line, keyEnd);
      if !LeftBounded(line, keyStart) || separator == |line| || !IsSeparator(line[separator]) {
        WriteOn(line, key, cursor, out, line[cursor..keyEnd], keyEnd, whole);
        out := out + line[cursor..keyEnd];
        cursor := keyEnd;
        continue;
      }
      var valueStart := SkipSpaces(line, separator + 1);
      var valueEnd := ValueEnd(line, valueStart);
      WriteOn(line, key, cursor, out, line[cursor..valueStart] + MARK, valueEnd, whole);
      out := out + (line[cursor..valueStart] + MARK);
      cursor := valueEnd;
    }
    LastPiece(line, key, cursor);
    out := out + line[cursor..];
  }

  lemma LastPiece(s: string, key: SensitiveKey, cursor: nat)
    requires cursor <= |s| && Find(s, key, cursor).None?
    ensures Redacted(s, key, cursor) == s[cursor..]
  {
  }

  // ---------------------------------------------------------------- one replacement

  /** `w` with what stands between `v` and `ve` replaced by the mark. */
  function Marked(w: string, v: nat, ve: nat): string
    requires v <= ve <= |w|
  {
    w[..v] + MARK + w[ve..]
  }

  /** The replaced part follows a separator or a space, and ends at a delimiter or at the end. */
  predicate IsValueRange(w: string, v: nat, ve: nat) {
    && 0 < v <= ve <= |w|
    && (IsSeparator(w[v - 1]) || IsWhitespace(w[v - 1]))
    && (ve < |w| ==> IsDelimiter(w[ve]))
  }

  lemma KeyIsPlain(s: string, key: SensitiveKey, i: int, t: int)
    requires KeyAt(s, key, i) && i <= t < i + |key|
    ensures 'a' <= LowerChar(s[t]) <= 'z' || s[t] == '_'
    ensures !IsWhitespace(s[t]) && !IsSeparator(s[t]) && s[t] != '<' && s[t] != '>' && !IsDelimiter(s[t])
  {
    assert LowerChar(s[i + (t - i)]) == key[t - i];
  }

  /** Where a value of the marked line can be: up to the mark, or behind it. */
  lemma ValueBesideMark(w: string, v: nat, ve: nat, key: SensitiveKey, i: int, e: int, x: int)
    requires IsValueRange(w, v, ve)
    requires ValueAt(Marked(w, v, ve), key, i, e, x)
    ensures x <= v || i > v + |MARK|
  {
    var m := Marked(w, v, ve);
    assert m[v] == '<' && m[v + 9] == '>';
    assert forall t :: v <= t < v + |MARK| ==> !IsSeparator(m[t]);
    assert ve < |w| ==> m[v + |MARK|] == w[ve];
    if x > v {
      if i <= v {
        if v < i + |key| { KeyIsPlain(m, key, i, v); }
        assert false;
      }
      if i < v + |MARK| {
        if i + |key| > v + 9 {
          KeyIsPlain(m, key, i, v + 9);
        }
        assert false;
      }
      if i == v + |MARK| {
        KeyIsPlain(m, key, i, i);
        assert false;
      }
    }
  }

  lemma MarkIsPlain(w: string, x: int)
    requires RedactedAt(w, x)
    ensures forall t :: x <= t < x + |MARK| ==> !IsSeparator(w[t]) && !IsWhitespace(w[t])
  {
    forall t | x <= t < x + |MARK| ensures !IsSeparator(w[t]) && !IsWhitespace(w[t]) {
      assert w[t] == w[x..x + |MARK|][t - x];
    }
  }

  lemma WhitespaceShifts(m: string, w: string, from: int, to: int, d: int)
    requires 0 <= from && to <= |m| && 0 <= from - d && to - d <= |w|
    requires AllWhitespace(m, from, to) && forall t :: from <= t < to ==> m[t] == w[t - d]
    ensures AllWhitespace(w, from - d, to - d)
  {
    forall t | from - d <= t < to - d ensures IsWhitespace(w[t]) {
      assert m[t + d] == w[t];
    }
  }

  lemma KeyShifts(m: string, w: string, key: SensitiveKey, i: int, d: int)
    requires KeyAt(m, key, i) && 0 <= i - d && i - d + |key| <= |w|
    requires forall t :: i <= t < i + |key| ==> m[t] == w[t - d]
    ensures KeyAt(w, key, i - d)
  {
    forall t | 0 <= t < |key| ensures LowerChar(w[i - d + t]) == key[t] {
      assert m[i + t] == w[i + t - d];
    }
  }

  /** A value before the mark is a value of the line that was marked, and redacted if it was. */
  lemma ValueBeforeMark(w: string, v: nat, ve: nat, key: SensitiveKey, i: int, e: int, x: int)
    requires IsValueRange(w, v, ve)
    requires ValueAt(Marked(w, v, ve), key, i, e, x) && x < v
    ensures ValueAt(w, key, i, e, x)
    ensures RedactedAt(w, x) ==> RedactedAt(Marked(w, v, ve), x)
  {
    var m := Marked(w, v, ve);
    assert m[..v] == w[..v];
    assert forall t :: 0 <= t < v ==> m[t] == w[t];
    if RedactedAt(w, x) {
      MarkIsPlain(w, x);
      assert x + |MARK| < v;
      assert m[x..x + |MARK|] == w[x..x + |MARK|];
    }
  }

  /** `w` is `m` shifted by `d`, from position `from` on. */
  ghost predicate SameFrom(m: string, w: string, from: int, d: int) {
    && 0 <= from && 0 <= from - d && |m| - d == |w|
    && forall t :: from <= t < |m| ==> m[t] == w[t - d]
  }

  lemma ValueShifts(m: string, w: string, key: SensitiveKey, i: int, e: int, x: int, d: int)
    requires ValueAt(m, key, i, e, x) && i > 0 && SameFrom(m, w, i - 1, d)
    ensures ValueAt(w, key, i - d, e - d, x - d)
  {
    hide KeyAt, AllWhitespace, IsKey;
    KeyFits(m, key, i);
    KeyShifts(m, w, key, i, d);
    WhitespaceShifts(m, w, i + |key|, e, d);
    WhitespaceShifts(m, w, e + 1, x, d);
  }

  lemma RedactedShifts(m: string, w: string, from: int, x: int, d: int)
    requires SameFrom(m, w, from, d) && from <= x && RedactedAt(w, x - d)
    ensures RedactedAt(m, x)
  {
    assert m[x..x + |MARK|] == w[x - d..x - d + |MARK|];
  }

  /** A value behind the mark was a value of the line that was marked, and stays redacted if it was. */
  lemma ValueBehindMark(w: string, v: nat, ve: nat, key: SensitiveKey, i: int, e: int, x: int)
    requires IsValueRange(w, v, ve)
    requires ValueAt(Marked(w, v, ve), key, i, e, x) && i > v + |MARK|
    ensures var d := v + |MARK| - ve;
      && ValueAt(w, key, i - d, e - d, x - d)
      && (RedactedAt(w, x - d) ==> RedactedAt(Marked(w, v, ve), x))
  {
    hide ValueAt, RedactedAt, IsKey;
    var m, d := Marked(w, v, ve), v + |MARK| - ve;
    assert SameFrom(m, w, v + |MARK|, d);
    ValueInOrder(m, key, i, e, x);
    assert SameFrom(m, w, i - 1, d);
    ValueShifts(m, w, key, i, e, x, d);
    if RedactedAt(w, x - d) {
      RedactedShifts(m, w, v + |MARK|, x, d);
    }
  }

  lemma ValueInOrder(s: string, key: SensitiveKey, i: int, e: int, v: int)
    requires ValueAt(s, key, i, e, v)
    ensures 0 <= i < e < v <= |s|
  {
  }

  /** The value at the mark itself is redacted. */
  lemma MarkIsRedacted(w: string, v: nat, ve: nat)
    requires IsValueRange(w, v, ve)
    ensures RedactedAt(Marked(w, v, ve), v)
  {
    var m := Marked(w, v, ve);
    assert m[v..v + |MARK|] == MARK;
  }

  /** Marking one value spoils no redacted value, whatever key it belongs to. */
  lemma MarkingKeepsClean(w: string, v: nat, ve: nat, key: SensitiveKey)
    requires IsValueRange(w, v, ve) && Clean(w, key)
    ensures Clean(Marked(w, v, ve), key)
  {
    var m, d := Marked(w, v, ve), v + |MARK| - ve;
    MarkIsRedacted(w, v, ve);
    forall i, e, x | 0 <= i && ValueAt(m, key, i, e, x) ensures RedactedAt(m, x) {
      ValueBesideMark(w, v, ve, key, i, e, x);
      if x < v {
        ValueBeforeMark(w, v, ve, key, i, e, x);
      } else if x > v {
        ValueBehindMark(w, v, ve, key, i, e, x);
        assert ValueAt(w, key, i - d, e - d, x - d);
      }
    }
  }

  // ---------------------------------------------------------------- one pass

  /** The line once everything from `c` on has been passed over. */
  function Out(s: string, key: SensitiveKey, c: nat): string
    requires c <= |s|
  {
    s[..c] + Redacted(s, key, c)
  }

  lemma ValueStartFinds(s: string, key: SensitiveKey, i: nat, e: int, v: int)
    requires KeyAt(s, key, i)
    ensures ValueAt(s, key, i, e, v) ==> ValueStart(s, key, i) == Some(v)
    ensures ValueStart(s, key, i).Some? ==>
              ValueAt(s, key, i, SkipWhitespace(s, i + |key|), ValueStart(s, key, i).value)
  {
    var sep := SkipWhitespace(s, i + |key|);
    if ValueAt(s, key, i, e, v) {
      assert sep == e;
      assert SkipWhitespace(s, e + 1) == v;
    }
  }

  /** Up to and including the first position where a key may stand, the pass copies. */
  lemma CopiesUpTo(s: string, key: SensitiveKey, c: nat, e: nat)
    requires c <= e <= |s| && forall t :: c <= t < e ==> !KeyAt(s, key, t)
    ensures e == |s| ==> Out(s, key, c) == s
    ensures e < |Out(s, key, c)| <==> e < |s|
    ensures forall t :: 0 <= t <= e && t < |s| ==> t < |Out(s, key, c)| && Out(s, key, c)[t] == s[t]
  {
    hide KeyAt, ValueStart, ValueEnd;
    var piece := Piece(s, key, c);
    if piece.Some? {
      var found := Find(s, key, c).value;
      var shown := found + |key|;
      assert e <= found && c <= found;
      assert piece.value.0[..shown - c] == s[c..shown];
      PrefixShown(s, c, shown, piece.value.0, Redacted(s, key, c));
    }
  }

  lemma PrefixShown(s: string, c: nat, shown: nat, piece: string, rest: string)
    requires c <= shown <= |s| && shown - c <= |piece| <= |rest| && rest[..|piece|] == piece
    requires piece[..shown - c] == s[c..shown]
    ensures |s[..c] + rest| >= shown && (s[..c] + rest)[..shown] == s[..shown]
  {
    assert rest[..shown - c] == piece[..shown - c];
  }

  /** A key without a value: the pass goes on behind it. */
  lemma OutPastKey(s: string, key: SensitiveKey, c: nat, k: nat)
    requires c <= |s| && Find(s, key, c) == Some(k) && ValueStart(s, key, k).None?
    ensures k + |key| <= |s| && Out(s, key, c) == Out(s, key, k + |key|)
  {
    hide Find, ValueStart, ValueEnd, KeyAt;
    KeyFits(s, key, k);
    var next := k + |key|;
    var rest := Redacted(s, key, next);
    assert Redacted(s, key, c) == s[c..next] + rest;
    hide Redacted;
    assert s[..c] + (s[c..next] + rest) == s[..c] + s[c..next] + rest;
    assert s[..c] + s[c..next] == s[..next];
  }

  lemma RedactedPastValue(s: string, key: SensitiveKey, c: nat, k: nat, v: nat, ve: nat)
    requires c <= |s| && Find(s, key, c) == Some(k) && ValueStart(s, key, k) == Some(v) && ve == ValueEnd(s, v)
    ensures c <= v <= ve <= |s| && Redacted(s, key, c) == s[c..v] + MARK + Redacted(s, key, ve)
  {
  }

  /** A key with a value: the pass goes on behind the value, and the value is marked. */
  lemma OutPastValue(s: string, key: SensitiveKey, c: nat, k: nat, v: nat, ve: nat)
    requires c <= |s| && Find(s, key, c) == Some(k) && ValueStart(s, key, k) == Some(v) && ve == ValueEnd(s, v)
    ensures var w := Out(s, key, ve);
      w[..ve] == s[..ve] && IsValueRange(w, v, ve) && Out(s, key, c) == Marked(w, v, ve)
  {
    hide Redacted, KeyAt, IsValueRange, Find, Piece;
    RedactedPastValue(s, key, c, k, v, ve);
    var w, rest := Out(s, key, ve), Redacted(s, key, ve);
    assert w[..ve] == s[..ve] && w[ve..] == rest;
    assert w[..v] == s[..v];
    assert s[..c] + s[c..v] == s[..v];
    assert s[..c] + (s[c..v] + MARK + rest) == (s[..c] + s[c..v]) + MARK + rest;
    ValueRangeOfCopy(s, key, k, v, ve, w);
  }

  lemma ValueRangeOfCopy(s: string, key: SensitiveKey, k: nat, v: nat, ve: nat, w: string)
    requires KeyAt(s, key, k) && ValueStart(s, key, k) == Some(v) && ve == ValueEnd(s, v)
    requires w == Out(s, key, ve)
    ensures IsValueRange(w, v, ve)
  {
    hide Redacted, KeyAt;
    CopiesUpTo(s, key, ve, ve);
    ValueStartFinds(s, key, k, 0, 0);
    assert w[v - 1] == s[v - 1];
  }

  lemma NoKeyInSpaces(s: string, key: SensitiveKey, from: nat, to: nat)
    requires to <= |s| && AllWhitespace(s, from, to)
    ensures forall t :: from <= t < to ==> !KeyAt(s, key, t)
  {
    forall t | from <= t < to ensures !KeyAt(s, key, t) {
      if KeyAt(s, key, t) {
        KeyIsPlain(s, key, t, t);
      }
    }
  }

  /** A line that agrees up to the first non-space behind a key gives the key a value only if the line did. */
  lemma NoValueInCopy(s: string, o: string, key: SensitiveKey, i: nat, e: int, x: int)
    requires KeyAt(s, key, i) && ValueStart(s, key, i).None?
    requires var sep := SkipWhitespace(s, i + |key|);
      && (sep == |s| ==> o == s) && (sep < |o| <==> sep < |s|)
      && forall t :: 0 <= t <= sep && t < |s| ==> t < |o| && o[t] == s[t]
    ensures !ValueAt(o, key, i, e, x)
  {
    var sep := SkipWhitespace(s, i + |key|);
    assert i > 0 ==> o[i - 1] == s[i - 1];
    assert sep < |s| ==> o[sep] == s[sep];
  }

  /** A key without a value does not get one from what the pass writes behind it. */
  lemma NoValueStays(s: string, key: SensitiveKey, i: nat, e: int, x: int)
    requires KeyAt(s, key, i) && ValueStart(s, key, i).None?
    ensures i + |key| <= |s| && !ValueAt(Out(s, key, i + |key|), key, i, e, x)
  {
    hide KeyAt, AllWhitespace, Redacted, Out, ValueStart, ValueAt;
    KeyFits(s, key, i);
    var next := i + |key|;
    var sep := SkipWhitespace(s, next);
    NoKeyInSpaces(s, key, next, sep);
    CopiesUpTo(s, key, next, sep);
    NoValueInCopy(s, Out(s, key, next), key, i, e, x);
  }

  lemma FirstLetter(s: string, key: SensitiveKey, i: int)
    requires KeyAt(s, key, i)
    ensures LowerChar(s[i]) == key[0]
  {
    assert LowerChar(s[i + 0]) == key[0];
  }

  lemma NotFirstLetter(s: string, key: SensitiveKey, i: int, j: int)
    requires KeyAt(s, key, i) && i < j < i + |key|
    ensures LowerChar(s[j]) != key[0]
  {
    assert LowerChar(s[i + (j - i)]) == key[j - i];
  }

  /** After a key, no further key starts before its value does. */
  lemma NoKeyInside(s: string, key: SensitiveKey, i: nat, v: nat, j: int)
    requires KeyAt(s, key, i) && ValueStart(s, key, i) == Some(v)
    ensures KeyAt(s, key, j) && i < j ==> v <= j
  {
    if KeyAt(s, key, j) && i < j {
      KeyIsPlain(s, key, j, j);
      FirstLetter(s, key, j);
      if j < i + |key| {
        NotFirstLetter(s, key, i, j);
      }
    }
  }

  lemma NoKeyOverlaps(s: string, o: string, key: SensitiveKey, i: nat, j: int)
    requires KeyAt(s, key, i) && i + |key| <= |o| && o[..i + |key|] == s[..i + |key|]
    ensures KeyAt(o, key, j) && i < j ==> i + |key| <= j
    ensures KeyAt(o, key, j) && j <= i ==> KeyAt(s, key, j)
  {
    assert forall t :: 0 <= t < i + |key| ==> o[t] == s[t];
    if KeyAt(o, key, j) && i < j {
      FirstLetter(o, key, j);
      if j < i + |key| {
        NotFirstLetter(s, key, i, j);
      }
    }
  }

  /** A value of the line before the end of the part that was copied is a value of the original. */
  lemma ValueOfCopy(s: string, w: string, n: nat, key: SensitiveKey, i: int, e: int, x: int)
    requires n <= |s| && n <= |w| && w[..n] == s[..n] && ValueAt(w, key, i, e, x) && x < n
    ensures ValueAt(s, key, i, e, x)
  {
    assert forall t :: 0 <= t < n ==> w[t] == s[t];
  }

  lemma NoKeyLeft(s: string, key: SensitiveKey, c: nat)
    requires c <= |s| && Find(s, key, c).None?
    ensures Out(s, key, c) == s && CleanFrom(s, key, c)
  {
    LastPiece(s, key, c);
    assert s[..c] + s[c..] == s;
  }

  /** A pass leaves no value of its key unredacted. */
  lemma {:induction false} PassCleans(s: string, key: SensitiveKey, c: nat)
    requires c <= |s|
    ensures CleanFrom(Out(s, key, c), key, c)
    decreases |s| - c
  {
    hide KeyAt, CleanFrom, Redacted, LeftBounded, AllWhitespace;
    var found := Find(s, key, c);
    if found.None? {
      NoKeyLeft(s, key, c);
    } else {
      var k := found.value;
      var v := ValueStart(s, key, k);
      if v.None? {
        KeyFits(s, key, k);
        PassCleans(s, key, k + |key|);
        KeyIsPassed(s, key, c, k);
      } else {
        PassCleans(s, key, ValueEnd(s, v.value));
        ValueIsCleaned(s, key, c, k, v.value, ValueEnd(s, v.value));
      }
    }
  }

  lemma KeyIsPassed(s: string, key: SensitiveKey, c: nat, k: nat)
    requires c <= |s| && Find(s, key, c) == Some(k) && ValueStart(s, key, k).None?
    requires CleanFrom(Out(s, key, k + |key|), key, k + |key|)
    ensures CleanFrom(Out(s, key, c), key, c)
  {
    hide Redacted, IsKey, RedactedAt;
    OutPastKey(s, key, c, k);
    var o := Out(s, key, c);
    forall i, e, x | c <= i && ValueAt(o, key, i, e, x) ensures RedactedAt(o, x) {
      assert o[..k + |key|] == s[..k + |key|];
      NoKeyOverlaps(s, o, key, k, i);
      NoValueStays(s, key, k, e, x);
    }
  }

  lemma ValueIsCleaned(s: string, key: SensitiveKey, c: nat, k: nat, v: nat, ve: nat)
    requires c <= |s| && Find(s, key, c) == Some(k) && ValueStart(s, key, k) == Some(v)
    requires ve == ValueEnd(s, v) && CleanFrom(Out(s, key, ve), key, ve)
    ensures CleanFrom(Out(s, key, c), key, c)
  {
    hide Redacted, IsKey, RedactedAt, IsValueRange;
    OutPastValue(s, key, c, k, v, ve);
    var w := Out(s, key, ve);
    MarkIsRedacted(w, v, ve);
    forall i, e, x | c <= i && ValueAt(Marked(w, v, ve), key, i, e, x) ensures RedactedAt(Marked(w, v, ve), x) {
      ValueIsCleanedAt(s, key, c, k, v, ve, w, i, e, x);
    }
  }

  /** The first key's value is the first value. */
  lemma NoValueBefore(s: string, key: SensitiveKey, c: nat, k: nat, v: nat, i: int, e: int, x: int)
    requires c <= |s| && Find(s, key, c) == Some(k) && ValueStart(s, key, k) == Some(v)
    requires c <= i && ValueAt(s, key, i, e, x)
    ensures v <= x
  {
    hide AllWhitespace, IsKey;
    ValueStartFinds(s, key, i, e, x);
    NoKeyInside(s, key, k, v, i);
  }

  lemma ValueIsCleanedAt(s: string, key: SensitiveKey, c: nat, k: nat, v: nat, ve: nat, w: string,
                         i: int, e: int, x: int)
    requires c <= |s| && Find(s, key, c) == Some(k) && ValueStart(s, key, k) == Some(v) && ve == ValueEnd(s, v)
    requires w == Out(s, key, ve) && w[..ve] == s[..ve] && IsValueRange(w, v, ve) && CleanFrom(w, key, ve)
    requires c <= i && ValueAt(Marked(w, v, ve), key, i, e, x)
    ensures RedactedAt(Marked(w, v, ve), x)
  {
    hide Redacted, IsKey, RedactedAt, AllWhitespace, KeyAt, Find, Marked, ValueStart, ValueEnd, Out;
    ValueBesideMark(w, v, ve, key, i, e, x);
    if x < v {
      ValueBeforeMark(w, v, ve, key, i, e, x);
      ValueOfCopy(s, w, ve, key, i, e, x);
      NoValueBefore(s, key, c, k, v, i, e, x);
    } else if x > v {
      ValueBehindMark(w, v, ve, key, i, e, x);
      var d := v + |MARK| - ve;
      assert ValueAt(w, key, i - d, e - d, x - d);
    } else {
      MarkIsRedacted(w, v, ve);
    }
  }

  /** A pass for one key keeps every other key's values redacted. */
  lemma {:induction false} PassKeepsClean(s: string, key: SensitiveKey, c: nat, other: SensitiveKey)
    requires c <= |s| && Clean(s, other)
    ensures Clean(Out(s, key, c), other)
    decreases |s| - c
  {
    hide KeyAt, CleanFrom;
    var found := Find(s, key, c);
    if found.None? {
      assert Out(s, key, c) == s;
    } else {
      var k := found.value;
      var v := ValueStart(s, key, k);
      if v.None? {
        OutPastKey(s, key, c, k);
        PassKeepsClean(s, key, k + |key|, other);
      } else {
        var ve := ValueEnd(s, v.value);
        OutPastValue(s, key, c, k, v.value, ve);
        PassKeepsClean(s, key, ve, other);
        MarkingKeepsClean(Out(s, key, ve), v.value, ve, other);
      }
    }
  }

  lemma ValueOfCleanLine(s: string, key: SensitiveKey, k: nat, v: nat)
    requires Clean(s, key) && KeyAt(s, key, k) && ValueStart(s, key, k) == Some(v)
    ensures RedactedAt(s, v)
  {
    ValueStartFinds(s, key, k, 0, 0);
  }

  /** A pass over a line whose values are redacted changes nothing. */
  lemma {:induction false} PassFixesClean(s: string, key: SensitiveKey, c: nat)
    requires c <= |s| && Clean(s, key)
    ensures Out(s, key, c) == s
    decreases |s| - c
  {
    hide KeyAt, Redacted, Clean, IsValueRange, Piece;
    var found := Find(s, key, c);
    if found.None? {
      LastPiece(s, key, c);
      assert s[..c] + s[c..] == s;
    } else {
      var k := found.value;
      var v := ValueStart(s, key, k);
      if v.None? {
        OutPastKey(s, key, c, k);
        PassFixesClean(s, key, k + |key|);
      } else {
        var ve := ValueEnd(s, v.value);
        OutPastValue(s, key, c, k, v.value, ve);
        PassFixesClean(s, key, ve);
        ValueOfCleanLine(s, key, k, v.value);
        MarkEnds(s, v.value);
      }
    }
  }

  /** The value that reads as the mark ends where the mark does, and marking it again is no change. */
  lemma MarkEnds(s: string, v: nat)
    requires RedactedAt(s, v)
    ensures ValueEnd(s, v) == v + |MARK| && Marked(s, v, v + |MARK|) == s
  {
    forall t | v <= t < v + |MARK| ensures !IsDelimiter(s[t]) {
      assert s[t] == s[v..v + |MARK|][t - v];
    }
    assert s == s[..v] + s[v..v + |MARK|] + s[v + |MARK|..];
  }

  /** One pass changes a line exactly when some value of the key is not redacted. */
  lemma PassUnchangedIffClean(s: string, key: SensitiveKey)
    ensures Redacted(s, key, 0) == s <==> Clean(s, key)
  {
    assert Out(s, key, 0) == Redacted(s, key, 0);
    PassCleans(s, key, 0);
    if Clean(s, key) {
      PassFixesClean(s, key, 0);
    }
  }

  // ---------------------------------------------------------------- all passes

  /** The passes for the keys from the `n`-th on. */
  function RedactedForKeys(s: string, keys: seq<SensitiveKey>): string
    decreases |keys|
  {
    if |keys| == 0 then s else RedactedForKeys(Redacted(s, keys[0], 0), keys[1..])
  }

  ghost predicate CleanForKeys(s: string, keys: seq<SensitiveKey>) {
    forall k :: k in keys ==> Clean(s, k)
  }

  /** `out` is the line after all passes, and shows no sensitive value. */
  ghost predicate IsRedactionOf(line: string, out: string) {
    && out == RedactedForKeys(line, SENSITIVE_KEYS)
    && CleanForKeys(out, SENSITIVE_KEYS)
  }

  /** One pass per key, in order. */
  method RedactSensitiveLogLine(line: string) returns (out: string)
    ensures IsRedactionOf(line, out)
    ensures out == line <==> CleanForKeys(line, SENSITIVE_KEYS)
  {
    var keys := SENSITIVE_KEYS;
    out := line;
    for n := 0 to |keys|
      invariant RedactedForKeys(out, keys[n..]) == RedactedForKeys(line, keys)
    {
      assert keys[n..][1..] == keys[n + 1..];
      assert keys[n] in keys;
      out := RedactKeyValue(out, keys[n]);
    }
    AllPassesClean(line, keys, []);
    if CleanForKeys(line, keys) {
      AllPassesFixClean(line, keys);
    }
  }

  /** Later passes never undo earlier ones: at the end every key's values are redacted. */
  lemma {:induction false} AllPassesClean(s: string, keys: seq<SensitiveKey>, done: seq<SensitiveKey>)
    requires CleanForKeys(s, done)
    ensures CleanForKeys(RedactedForKeys(s, keys), keys) && CleanForKeys(RedactedForKeys(s, keys), done)
    decreases |keys|
  {
    if |keys| > 0 {
      var next := Redacted(s, keys[0], 0);
      assert Out(s, keys[0], 0) == next;
      PassCleans(s, keys[0], 0);
      forall k | k in done ensures Clean(next, k) {
        PassKeepsClean(s, keys[0], 0, k);
      }
      AllPassesClean(next, keys[1..], done + [keys[0]]);
      var end := RedactedForKeys(s, keys);
      assert Clean(end, keys[0]) by { assert keys[0] in done + [keys[0]]; }
      forall k | k in done ensures Clean(end, k) { assert k in done + [keys[0]]; }
      forall k | k in keys ensures Clean(end, k) { assert k == keys[0] || k in keys[1..]; }
    }
  }

  lemma {:induction false} AllPassesFixClean(s: string, keys: seq<SensitiveKey>)
    requires CleanForKeys(s, keys)
    ensures RedactedForKeys(s, keys) == s
    decreases |keys|
  {
    if |keys| > 0 {
      PassUnchangedIffClean(s, keys[0]);
      AllPassesFixClean(s, keys[1..]);
    }
  }

  /** Redacting a redacted line changes nothing. */
  lemma RedactionIsIdempotent(s: string)
    ensures var once := RedactedForKeys(s, SENSITIVE_KEYS); RedactedForKeys(once, SENSITIVE_KEYS) == once
  {
    AllPassesClean(s, SENSITIVE_KEYS, []);
    AllPassesFixClean(RedactedForKeys(s, SENSITIVE_KEYS), SENSITIVE_KEYS);
  }
}
