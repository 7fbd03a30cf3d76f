/** Bounded newline framing: one JSON document and a newline per frame. */
module PeerFraming {
  import opened Base
  import opened Peer

  const NEWLINE: Byte := 10

  /** The frame of a document that fits, newline included, within the limit. */
  function EncodeFrame(json: Bytes, maximum: nat): Option<Bytes> {
    if |json| < maximum then Some(json + [NEWLINE]) else None
  }

  /** The serializer writes a document piece by piece into a bounded buffer. */
  method EncodeBounded(chunks: seq<Bytes>, maximum: nat) returns (r: Option<Bytes>)
    requires maximum >= 1
    ensures r == EncodeFrame(Concat(chunks), maximum)
  {
    var bytes: Bytes := [];
    for i := 0 to |chunks|
      invariant bytes == Concat(chunks[..i]) && |bytes| <= maximum - 1
    {
      ConcatAt(chunks, i);
      ConcatGrows(chunks, i + 1);
      if |chunks[i]| > maximum - 1 - |bytes| {
        return None;
      }
      bytes := bytes + chunks[i];
    }
    assert chunks[..|chunks|] == chunks;
    return Some(bytes + [NEWLINE]);
  }

  /** The size of a document written piece by piece, unless it passes the budget. */
  method MeasureBounded(chunks: seq<Bytes>, budget: nat) returns (r: Option<nat>)
    ensures r == if |Concat(chunks)| <= budget then Some(|Concat(chunks)|) else None
  {
    var size := 0;
    for i := 0 to |chunks|
      invariant size == |Concat(chunks[..i])| && size <= budget
    {
      ConcatAt(chunks, i);
      ConcatGrows(chunks, i + 1);
      if size + |chunks[i]| > budget {
        return None;
      }
      size := size + |chunks[i]|;
    }
    assert chunks[..|chunks|] == chunks;
    return Some(size);
  }

  /** Bytes up to and including the first newline, or `limit` of them, or all. */
  function Line(stream: Bytes, limit: nat): Bytes {
    if stream == [] || limit == 0 then []
    else if stream[0] == NEWLINE then [NEWLINE]
    else [stream[0]] + Line(stream[1..], limit - 1)
  }

  lemma {:induction false} LineIsPrefix(stream: Bytes, limit: nat)
    ensures Line(stream, limit) <= stream && |Line(stream, limit)| <= limit
    decreases limit
  {
    if stream != [] && limit != 0 && stream[0] != NEWLINE {
      LineIsPrefix(stream[1..], limit - 1);
      assert stream == [stream[0]] + stream[1..];
    }
  }

  function ReadFrame(stream: Bytes, maximum: nat): Result<Bytes, CloseReason> {
    var bytes := Line(stream, maximum + 1);
    if bytes == [] then Err(Disconnected)
    else if |bytes| > maximum || bytes[|bytes| - 1] != NEWLINE then Err(ProtocolError)
    else Ok(bytes)
  }

  /** `n` bytes without a newline, then a newline. */
  ghost predicate FirstNewline(stream: Bytes, n: nat) {
    n < |stream| && stream[n] == NEWLINE && NEWLINE !in stream[..n]
  }

  lemma {:induction false} LineStops(stream: Bytes, n: nat, limit: nat)
    requires FirstNewline(stream, n)
    ensures Line(stream, limit) == if n < limit then stream[..n + 1] else stream[..limit]
    decreases limit
  {
    if limit != 0 {
      if n == 0 {
        assert stream[..1] == [NEWLINE];
      } else {
        assert stream[0] == stream[..n][0];
        assert stream[1..][..n - 1] == stream[..n][1..];
        LineStops(stream[1..], n - 1, limit - 1);
      }
    } else {
      assert stream[..0] == [];
    }
  }

  lemma {:induction false} LineWithoutNewline(stream: Bytes, limit: nat)
    requires NEWLINE !in stream
    ensures NEWLINE !in Line(stream, limit)
    decreases limit
  {
    if stream != [] && limit != 0 {
      assert forall x :: x in stream[1..] ==> x in stream;
      LineWithoutNewline(stream[1..], limit - 1);
    }
  }

  lemma {:induction false} HasFirst(stream: Bytes) returns (n: nat)
    requires NEWLINE in stream
    ensures FirstNewline(stream, n)
    decreases |stream|
  {
    if stream[0] == NEWLINE {
      n := 0;
    } else {
      assert NEWLINE in stream[1..] by {
        var i :| 0 <= i < |stream| && stream[i] == NEWLINE;
        assert stream[1..][i - 1] == NEWLINE;
      }
      var k := HasFirst(stream[1..]);
      n := k + 1;
      assert stream[..n] == [stream[0]] + stream[1..][..n - 1];
    }
  }

  /** A frame is read exactly when a newline ends it within the limit; it is that line. */
  lemma ReadFrameIff(stream: Bytes, maximum: nat)
    ensures ReadFrame(stream, maximum).Ok? <==> exists n: nat :: FirstNewline(stream, n) && n < maximum
    ensures ReadFrame(stream, maximum) == Err(Disconnected) <==> stream == []
    ensures forall n: nat :: FirstNewline(stream, n) && n < maximum ==> ReadFrame(stream, maximum) == Ok(stream[..n + 1])
  {
    var bytes := Line(stream, maximum + 1);
    if NEWLINE in stream {
      var n := HasFirst(stream);
      LineStops(stream, n, maximum + 1);
      forall m: nat | FirstNewline(stream, m) ensures m == n {
      }
      if n > maximum {
        assert bytes[|bytes| - 1] == stream[..n][maximum];
      }
    } else {
      LineWithoutNewline(stream, maximum + 1);
      if bytes != [] {
        assert bytes[|bytes| - 1] in bytes;
      }
    }
  }

  /** A document without newlines is framed exactly when an end with the same limit reads
      its frame, whatever follows. */
  lemma FramedIffReadable(json: Bytes, rest: Bytes, maximum: nat)
    requires NEWLINE !in json
    ensures EncodeFrame(json, maximum).Some? <==> ReadFrame(json + [NEWLINE] + rest, maximum).Ok?
    ensures EncodeFrame(json, maximum).Some? ==>
      ReadFrame(EncodeFrame(json, maximum).value + rest, maximum) == Ok(json + [NEWLINE])
  {
    var stream := json + [NEWLINE] + rest;
    assert stream[..|json|] == json && FirstNewline(stream, |json|);
    ReadFrameIff(stream, maximum);
    assert stream[..|json| + 1] == json + [NEWLINE];
    forall n: nat | FirstNewline(stream, n) ensures n == |json| {
    }
  }

  /** The frames of documents without newlines, one after the other. */
  function Frames(docs: seq<Bytes>): Bytes {
    if docs == [] then [] else docs[0] + [NEWLINE] + Frames(docs[1..])
  }

  /** Reading `count` frames in a row. */
  function ReadFrames(stream: Bytes, maximum: nat, count: nat): Result<seq<Bytes>, CloseReason>
    decreases count
  {
    if count == 0 then Ok([])
    else
      var first := ReadFrame(stream, maximum);
      if first.Err? then Err(first.error)
      else
        LineIsPrefix(stream, maximum + 1);
        var rest := ReadFrames(stream[|first.value|..], maximum, count - 1);
        if rest.Err? then rest else Ok([first.value] + rest.value)
  }

  ghost predicate Sendable(docs: seq<Bytes>, maximum: nat) {
    forall d :: d in docs ==> NEWLINE !in d && |d| < maximum
  }

  function Lines(docs: seq<Bytes>): seq<Bytes> {
    seq(|docs|, i requires 0 <= i < |docs| => docs[i] + [NEWLINE])
  }

  /** What one end writes under a limit, the other end reads under the same limit. */
  lemma {:induction false} FramesReadBack(docs: seq<Bytes>, rest: Bytes, maximum: nat)
    requires Sendable(docs, maximum)
    ensures ReadFrames(Frames(docs) + rest, maximum, |docs|) == Ok(Lines(docs))
    decreases |docs|
  {
    if docs != [] {
      var stream := Frames(docs) + rest;
      var d := docs[0];
      assert d in docs;
      var tail := Frames(docs[1..]) + rest;
      assert stream == d + [NEWLINE] + tail;
      FramedIffReadable(d, tail, maximum);
      var first := d + [NEWLINE];
      assert ReadFrame(stream, maximum) == Ok(first) && stream[|first|..] == tail;
      FramesReadBack(docs[1..], rest, maximum);
      assert [first] + Lines(docs[1..]) == Lines(docs);
      assert ReadFrames(stream, maximum, |docs|) == Ok([first] + Lines(docs[1..]));
    }
  }
}
