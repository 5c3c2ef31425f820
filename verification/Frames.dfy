/** Newline-terminated IPC frames: writing one, and reading one from a stream that comes in pieces. */
module Frames {
  import opened Common

  newtype byte = b: int | 0 <= b < 256

  const NEWLINE: byte := 10

  type Bytes = seq<byte>

  datatype ReadResult = Frame | UnexpectedEof | TooLong | IoFailed

  /** No newline among the first `n` bytes. */
  predicate NoNewline(data: Bytes, n: int)
    requires n <= |data|
  {
    forall i :: 0 <= i < n ==> data[i] != NEWLINE
  }

  /** Length of the first frame: up to and including the first newline, or everything. */
  function FrameLength(data: Bytes): (n: nat)
    ensures n <= |data| && (|data| > 0 ==> n > 0)
    ensures NoNewline(data, n - 1)
    ensures n < |data| ==> n > 0 && data[n - 1] == NEWLINE
  {
    if |data| == 0 then 0 else if data[0] == NEWLINE then 1 else 1 + FrameLength(data[1..])
  }

  /** What a read gives, whatever the pieces: `line` is what the caller had buffered. */
  function ResultOf(line: Bytes, data: Bytes, limit: nat): ReadResult {
    if |data| == 0 then (if |line| == 0 then UnexpectedEof else Frame)
    else if |line| + FrameLength(data) > limit then TooLong
    else Frame
  }

  /** A buffered reader over a stream; it decides itself how much it shows at a time. */
  class Reader {
    var unread: Bytes

    constructor (data: Bytes)
      ensures unread == data
    {
      unread := data;
    }

    /** The next piece; an empty one means the end of the stream. */
    method FillBuf() returns (ok: bool, buffer: Bytes)
      ensures ok ==> buffer <= unread && (|buffer| == 0 <==> |unread| == 0)
    {
      var n: int := *;
      ok := *;
      buffer := if n <= 0 || n > |unread| then unread else unread[..n];
    }

    method Consume(n: nat)
      requires n <= |unread|
      modifies this
      ensures unread == old(unread)[n..]
    {
      unread := unread[n..];
    }
  }

  lemma FrameLengthIs(data: Bytes, n: nat)
    requires n <= |data| && NoNewline(data, n - 1) && (|data| > 0 ==> n > 0)
    requires n == |data| || data[n - 1] == NEWLINE
    ensures FrameLength(data) == n
  {
  }

  /** A piece without a newline moves the frame's start, not its end. */
  lemma FrameLengthPast(data: Bytes, k: nat)
    requires k < |data| && NoNewline(data, k)
    ensures FrameLength(data) == k + FrameLength(data[k..])
  {
    var rest := data[k..];
    var n := FrameLength(rest);
    assert forall i :: k <= i < |data| ==> data[i] == rest[i - k];
    FrameLengthIs(data, k + n);
  }

  /** Position just behind the first newline of a piece, or its length. */
  method NewlineEnd(buffer: Bytes) returns (consumed: nat)
    requires |buffer| > 0
    ensures consumed == FrameLength(buffer)
  {
    for i := 0 to |buffer|
      invariant NoNewline(buffer, i)
    {
      if buffer[i] == NEWLINE {
        FrameLengthIs(buffer, i + 1);
        return i + 1;
      }
    }
    FrameLengthIs(buffer, |buffer|);
    return |buffer|;
  }

  /** A first piece shows the whole frame, or it has no newline. */
  lemma FrameLengthOfPiece(data: Bytes, piece: Bytes)
    requires piece <= data && |piece| > 0
    ensures var n := FrameLength(piece);
      if piece[n - 1] == NEWLINE then FrameLength(data) == n
      else n == |piece| && NoNewline(piece, n) && NoNewline(data, n)
           && FrameLength(data) == n + if n < |data| then FrameLength(data[n..]) else 0
  {
    var n := FrameLength(piece);
    if piece[n - 1] == NEWLINE {
      FrameLengthIs(data, n);
    } else if n < |data| {
      FrameLengthPast(data, n);
    } else {
      FrameLengthIs(data, n);
    }
  }

  /** One round of a read: at least one byte more, and the frame is complete or still without a newline. */
  lemma OneRound(data: Bytes, k: nat, piece: Bytes)
    requires k < |data| && NoNewline(data, k) && piece <= data[k..] && |piece| > 0
    ensures var n := FrameLength(piece);
      && k + n <= |data| && k + n <= FrameLength(data)
      && (if piece[n - 1] == NEWLINE then FrameLength(data) == k + n else NoNewline(data, k + n))
  {
    hide FrameLength;
    var n, rest := FrameLength(piece), data[k..];
    FrameLengthPast(data, k);
    FrameLengthOfPiece(rest, piece);
    assert forall i :: k <= i < |data| ==> data[i] == rest[i - k];
  }

  /** The buffered line grows by what is consumed. */
  lemma Consumed(line0: Bytes, data: Bytes, k: nat, piece: Bytes, n: nat)
    requires k <= |data| && piece <= data[k..] && 0 < n <= |piece|
    ensures k + n <= |data| && line0 + data[..k] + piece[..n] == line0 + data[..k + n]
    ensures data[k..][n..] == data[k + n..] && (line0 + data[..k + n])[|line0| + k + n - 1] == piece[n - 1]
  {
    assert forall i :: 0 <= i < n ==> data[k + i] == piece[i];
    assert data[..k] + piece[..n] == data[..k + n];
  }

  lemma NothingLost(line0: Bytes, data: Bytes, k: nat)
    requires k <= |data|
    ensures (line0 + data[..k]) + data[k..] == line0 + data
  {
  }

  /** Read one frame; at most `limit` bytes are ever buffered. */
  method ReadBoundedLine(reader: Reader, line0: Bytes, limit: nat) returns (r: ReadResult, line: Bytes)
    modifies reader
    ensures line + reader.unread == line0 + old(reader.unread) && line0 <= line
    ensures |line0| <= limit ==> |line| <= limit
    ensures !r.IoFailed? ==> r == ResultOf(line0, old(reader.unread), limit)
    ensures r.Frame? ==>
      line == line0 + old(reader.unread)[..FrameLength(old(reader.unread))]
      && reader.unread == old(reader.unread)[FrameLength(old(reader.unread))..]
  {
    hide FrameLength, NoNewline;
    ghost var data := reader.unread;
    ghost var k := 0;
    line := line0;
    NothingReadYet(data);
    while true
      invariant 0 <= k <= |data| && reader.unread == data[k..] && line == line0 + data[..k]
      invariant |line0| <= limit ==> |line| <= limit
      invariant NoNewline(data, k) && (k > 0 ==> |line| <= limit)
      decreases |reader.unread|
    {
      var ok, buffer := reader.FillBuf();
      NothingLost(line0, data, k);
      if !ok {
        return IoFailed, line;
      }
      if |buffer| == 0 {
        EndOfStream(data, k);
        return if |line| == 0 then UnexpectedEof else Frame, line;
      }
      var consumed := NewlineEnd(buffer);
      OneRound(data, k, buffer);
      if |line| + consumed > limit {
        return TooLong, line;
      }
      Consumed(line0, data, k, buffer, consumed);
      line := line + buffer[..consumed];
      reader.Consume(consumed);
      k := k + consumed;
      if line[|line| - 1] == NEWLINE {
        NothingLost(line0, data, k);
        return Frame, line;
      }
    }
  }

  lemma NothingReadYet(data: Bytes)
    ensures NoNewline(data, 0)
  {
  }

  lemma EndOfStream(data: Bytes, k: nat)
    requires k == |data| && NoNewline(data, k)
    ensures FrameLength(data) == |data| && data[..|data|] == data
  {
    FrameLengthIs(data, |data|);
  }

  // ---------------------------------------------------------------- pieces and frames

  function Concat(pieces: seq<Bytes>): Bytes {
    if |pieces| == 0 then [] else pieces[0] + Concat(pieces[1..])
  }

  /** The same read over given pieces: the result, and the line it leaves. */
  function ReadPieces(pieces: seq<Bytes>, line: Bytes, limit: nat): (ReadResult, Bytes)
    requires forall p :: p in pieces ==> |p| > 0
  {
    if |pieces| == 0 then (if |line| == 0 then UnexpectedEof else Frame, line)
    else
      var consumed := FrameLength(pieces[0]);
      if |line| + consumed > limit then (TooLong, line)
      else
        var longer := line + pieces[0][..consumed];
        if longer[|longer| - 1] == NEWLINE then (Frame, longer) else ReadPieces(pieces[1..], longer, limit)
  }

  lemma PrefixBehind(line: Bytes, piece: Bytes, rest: Bytes, n: nat)
    requires n <= |rest|
    ensures line + piece + rest[..n] == line + (piece + rest)[..|piece| + n]
  {
    assert (piece + rest)[..|piece| + n] == piece + rest[..n];
  }

  /** However the stream is cut into pieces, the result and the frame are those of the whole. */
  lemma {:induction false} PiecesDoNotMatter(pieces: seq<Bytes>, line: Bytes, limit: nat)
    requires forall p :: p in pieces ==> |p| > 0
    ensures var data := Concat(pieces);
      && ReadPieces(pieces, line, limit).0 == ResultOf(line, data, limit)
      && (ResultOf(line, data, limit).Frame? ==>
            ReadPieces(pieces, line, limit).1 == line + data[..FrameLength(data)])
  {
    hide FrameLength, NoNewline;
    if |pieces| > 0 {
      var piece, rest := pieces[0], Concat(pieces[1..]);
      assert piece in pieces;
      var data := piece + rest;
      assert data == Concat(pieces);
      FrameLengthOfPiece(data, piece);
      var n := FrameLength(piece);
      assert data[..n] == piece[..n];
      hide Concat;
      if |line| + n <= limit && piece[n - 1] != NEWLINE {
        var longer := line + piece;
        assert piece[..n] == piece && longer[|longer| - 1] == piece[n - 1];
        PiecesDoNotMatter(pieces[1..], longer, limit);
        assert data[n..] == rest;
        if |rest| > 0 {
          PrefixBehind(line, piece, rest, FrameLength(rest));
        } else {
          assert data == piece;
        }
        hide ReadPieces;
      }
    }
  }

  class Writer {
    var written: Bytes

    constructor ()
      ensures written == []
    {
      written := [];
    }

    /** Write all of `data`; a failed write may have written a part of it. */
    method WriteAll(data: Bytes) returns (ok: bool)
      modifies this
      ensures exists n: nat :: n <= |data| && written == old(written) + data[..n] && (ok ==> n == |data|)
    {
      ok := *;
      var n: int := *;
      n := if ok || n < 0 || n > |data| then |data| else n;
      written := written + data[..n];
    }
  }

  /** The payload and a newline. */
  method WriteJsonLine(w: Writer, payload: Bytes) returns (ok: bool)
    modifies w
    ensures ok ==> w.written == old(w.written) + payload + [NEWLINE]
    ensures old(w.written) <= w.written <= old(w.written) + payload + [NEWLINE]
  {
    ok := w.WriteAll(payload);
    assert payload[..|payload|] == payload;
    if !ok {
      return false;
    }
    ok := w.WriteAll([NEWLINE]);
    assert [NEWLINE][..1] == [NEWLINE];
  }

  /** The stream that a list of payloads is written as. */
  function Stream(payloads: seq<Bytes>): Bytes {
    if |payloads| == 0 then [] else payloads[0] + [NEWLINE] + Stream(payloads[1..])
  }

  /** The frames of a stream, read one after the other until a read fails. */
  function ReadAll(data: Bytes, limit: nat): seq<Bytes>
    decreases |data|
  {
    if !ResultOf([], data, limit).Frame? then []
    else [data[..FrameLength(data)]] + ReadAll(data[FrameLength(data)..], limit)
  }

  predicate NewlineFree(payload: Bytes) {
    NoNewline(payload, |payload|)
  }

  lemma FirstFrame(payload: Bytes, rest: Bytes)
    requires NewlineFree(payload)
    ensures FrameLength(payload + [NEWLINE] + rest) == |payload| + 1
  {
    FrameLengthIs(payload + [NEWLINE] + rest, |payload| + 1);
  }

  /** What was written is read back, frame by frame, when every payload is newline-free and fits. */
  lemma {:induction false} StreamRoundTrip(payloads: seq<Bytes>, limit: nat)
    requires forall p :: p in payloads ==> NewlineFree(p) && |p| + 1 <= limit
    ensures ReadAll(Stream(payloads), limit) == Map((p: Bytes) => p + [NEWLINE], payloads)
  {
    if |payloads| > 0 {
      var p, rest := payloads[0], Stream(payloads[1..]);
      FirstFrame(p, rest);
      StreamRoundTrip(payloads[1..], limit);
      var data := Stream(payloads);
      assert data[..|p| + 1] == p + [NEWLINE] && data[|p| + 1..] == rest;
    }
  }

  /** A single frame comes back exactly when it is newline-free and fits the limit. */
  lemma FrameRoundTripIff(payload: Bytes, rest: Bytes, limit: nat)
    ensures var data := payload + [NEWLINE] + rest;
      ResultOf([], data, limit).Frame? && data[..FrameLength(data)] == payload + [NEWLINE]
      <==> NewlineFree(payload) && |payload| + 1 <= limit
  {
    var data := payload + [NEWLINE] + rest;
    assert data[..|payload| + 1] == payload + [NEWLINE];
    assert forall i :: 0 <= i < |payload| ==> data[i] == payload[i];
    if NewlineFree(payload) {
      FirstFrame(payload, rest);
    }
    assert |data[..FrameLength(data)]| == FrameLength(data);
  }
}
