/** Leader wire framing: a 4-byte big-endian payload length, then the payload. */
module FrameCodec {
  import opened Options

  const MAX_MESSAGE_SIZE: nat := 64 * 1024 * 1024

  type byte = x: int | 0 <= x < 256

  type Bytes = seq<byte>

  // ----- One frame -----

  /** `DataView.setUint32`, big-endian. */
  function Header(length: nat): (h: Bytes)
    requires length < 0x1_0000_0000
    ensures |h| == 4
  {
    [length / 0x100_0000, length / 0x1_0000 % 256, length / 256 % 256, length % 256]
  }

  /** `DataView.getUint32`. */
  function Length(h: Bytes): nat
    requires |h| == 4
  {
    var a: int, b: int, c: int, d: int := h[0], h[1], h[2], h[3];
    a * 0x100_0000 + b * 0x1_0000 + c * 256 + d
  }

  function Frame(payload: Bytes): Bytes
    requires |payload| <= MAX_MESSAGE_SIZE
  {
    Header(|payload|) + payload
  }

  lemma HeaderReads(length: nat)
    requires length < 0x1_0000_0000
    ensures Length(Header(length)) == length
  {
    var q1 := length / 256;
    var q2 := q1 / 256;
    var q3 := q2 / 256;
    assert length / 0x1_0000 == q2 && length / 0x100_0000 == q3;
    assert length == 256 * q1 + length % 256 && q1 == 256 * q2 + q1 % 256 && q2 == 256 * q3 + q2 % 256;
    Reads(q3, q2 % 256, q1 % 256, length % 256);
  }

  lemma Reads(a: byte, b: byte, c: byte, d: byte)
    ensures Length([a, b, c, d]) == (a as int) * 0x100_0000 + (b as int) * 0x1_0000 + (c as int) * 256 + d
  {
  }

  /** `encodeFrame`; an over-size payload is a FrameError. */
  method EncodeFrame(payload: Bytes) returns (frame: array?<byte>)
    ensures frame == null <==> |payload| > MAX_MESSAGE_SIZE
    ensures frame != null ==> fresh(frame) && frame[..] == Frame(payload)
  {
    if |payload| > MAX_MESSAGE_SIZE { return null; }
    frame := new byte[4 + |payload|];
    Blit(frame, 0, Header(|payload|));
    Blit(frame, 4, payload);
    assert frame[..] == frame[..4] + frame[4..];
  }

  /** `target.set(bytes, at)`. */
  method Blit(target: array<byte>, at: nat, bytes: Bytes)
    requires at + |bytes| <= target.Length
    modifies target
    ensures target[at..at + |bytes|] == bytes
    ensures target[..at] == old(target[..at]) && target[at + |bytes|..] == old(target[at + |bytes|..])
  {
    for i := 0 to |bytes|
      invariant target[at..at + i] == bytes[..i]
      invariant target[..at] == old(target[..at]) && target[at + i..] == old(target[at + i..])
    {
      target[at + i] := bytes[i];
      assert target[at..at + i + 1] == target[at..at + i] + [bytes[i]];
    }
  }

  // ----- What a byte stream holds -----

  /** The complete frames of a stream, what is left over, and whether a header in it is over-size. */
  datatype Scan = Scan(frames: seq<Bytes>, rest: Bytes, bad: bool)

  function ScanOf(stream: Bytes): Scan {
    if |stream| < 4 then Scan([], stream, false)
    else
      var length := Length(stream[..4]);
      if length > MAX_MESSAGE_SIZE then Scan([], stream[..4], true)
      else if |stream| < 4 + length then Scan([], stream, false)
      else
        var tail := ScanOf(stream[4 + length..]);
        Scan([stream[4..4 + length]] + tail.frames, tail.rest, tail.bad)
  }

  /** Scanning a stream that arrives in two parts. */
  function Continue(first: Scan, more: Bytes): Scan {
    if first.bad then first
    else
      var tail := ScanOf(first.rest + more);
      Scan(first.frames + tail.frames, tail.rest, tail.bad)
  }

  /** The scan of a stream that starts with a complete frame. */
  lemma ScanFrame(h: Bytes, payload: Bytes, tail: Bytes)
    requires |h| == 4 && Length(h) == |payload| <= MAX_MESSAGE_SIZE
    ensures ScanOf(h + payload + tail) == Prepend([payload], ScanOf(tail))
  {
    hide Length;
    var stream := h + payload + tail;
    assert stream[..4] == h && stream[4..4 + |payload|] == payload && stream[4 + |payload|..] == tail;
  }

  predicate StartsWithFrame(stream: Bytes) {
    |stream| >= 4 && Length(stream[..4]) <= MAX_MESSAGE_SIZE && |stream| >= 4 + Length(stream[..4])
  }

  lemma Opened(stream: Bytes)
    requires StartsWithFrame(stream)
    ensures var n := 4 + Length(stream[..4]); stream == stream[..4] + stream[4..n] + stream[n..]
    ensures var n := 4 + Length(stream[..4]); ScanOf(stream) == Prepend([stream[4..n]], ScanOf(stream[n..]))
  {
    hide Length, ScanOf, Prepend;
    var n := 4 + Length(stream[..4]);
    Cut3(stream, n);
    ScanFrame(stream[..4], stream[4..n], stream[n..]);
  }

  lemma Cut3(stream: Bytes, n: nat)
    requires 4 <= n <= |stream|
    ensures stream == stream[..4] + stream[4..n] + stream[n..] && |stream[4..n]| == n - 4
  {
  }

  lemma {:induction false} ScanSplit(a: Bytes, b: Bytes)
    ensures ScanOf(a + b) == Continue(ScanOf(a), b)
    decreases |a|
  {
    hide Length;
    if StartsWithFrame(a) {
      Opened(a);
      var n := 4 + Length(a[..4]);
      ScanSplit(a[n..], b);
      ScanFrame(a[..4], a[4..n], a[n..] + b);
      assert a + b == a[..4] + a[4..n] + (a[n..] + b);
      ContinuePrepend([a[4..n]], ScanOf(a[n..]), b);
    } else if |a| >= 4 && Length(a[..4]) > MAX_MESSAGE_SIZE {
      assert (a + b)[..4] == a[..4];
    } else {
      Prepended(ScanOf(a + b));
    }
  }

  lemma ContinuePrepend(frames: seq<Bytes>, s: Scan, more: Bytes)
    ensures Continue(Prepend(frames, s), more) == Prepend(frames, Continue(s, more))
  {
    assert frames + (s.frames + ScanOf(s.rest + more).frames) == frames + s.frames + ScanOf(s.rest + more).frames;
  }

  function Stream(payloads: seq<Bytes>): Bytes
    requires forall p :: p in payloads ==> |p| <= MAX_MESSAGE_SIZE
  {
    if payloads == [] then [] else Frame(payloads[0]) + Stream(payloads[1..])
  }

  /** Encoding then scanning returns the payloads, zero-length ones included. */
  lemma {:induction false} RoundTrip(payloads: seq<Bytes>)
    requires forall p :: p in payloads ==> |p| <= MAX_MESSAGE_SIZE
    ensures ScanOf(Stream(payloads)) == Scan(payloads, [], false)
  {
    hide Length;
    if payloads != [] {
      HeaderReads(|payloads[0]|);
      ScanFrame(Header(|payloads[0]|), payloads[0], Stream(payloads[1..]));
      RoundTrip(payloads[1..]);
      assert [payloads[0]] + payloads[1..] == payloads;
    }
  }

  lemma {:induction false} FramesFit(stream: Bytes)
    ensures forall p :: p in ScanOf(stream).frames ==> |p| <= MAX_MESSAGE_SIZE
  {
    if StartsWithFrame(stream) {
      Opened(stream);
      FramesFit(stream[4 + Length(stream[..4])..]);
    }
  }

  /** What a good scan leaves over is exactly the undecoded suffix, and holds no complete frame. */
  lemma {:induction false} RestIsSuffix(stream: Bytes)
    requires !ScanOf(stream).bad
    ensures var s := ScanOf(stream);
            (forall p :: p in s.frames ==> |p| <= MAX_MESSAGE_SIZE)
            && Stream(s.frames) + s.rest == stream && ScanOf(s.rest) == Scan([], s.rest, false)
  {
    FramesFit(stream);
    if StartsWithFrame(stream) {
      Opened(stream);
      var n := 4 + Length(stream[..4]);
      HeaderWrites(stream[..4]);
      hide Length, Header;
      RestIsSuffix(stream[n..]);
      StreamOf(stream[4..n], ScanOf(stream[n..]).frames);
    }
  }

  lemma StreamOf(first: Bytes, others: seq<Bytes>)
    requires |first| <= MAX_MESSAGE_SIZE && forall p :: p in others ==> |p| <= MAX_MESSAGE_SIZE
    ensures (forall p :: p in [first] + others ==> |p| <= MAX_MESSAGE_SIZE)
    ensures Stream([first] + others) == Frame(first) + Stream(others)
  {
    assert ([first] + others)[1..] == others;
  }

  lemma HeaderWrites(h: Bytes)
    requires |h| == 4
    ensures Header(Length(h)) == h
  {
    var n := Length(h);
    var a: int, b: int, c: int, d: int := h[0], h[1], h[2], h[3];
    assert n == 256 * (a * 0x1_0000 + b * 256 + c) + d;
    assert n / 256 == a * 0x1_0000 + b * 256 + c;
    assert n / 0x1_0000 == a * 256 + b;
    assert n / 0x100_0000 == a;
  }

  // ----- The incremental decoder -----

  class FrameDecoder {
    const header: array<byte>
    var headerBytes: nat
    var body: array?<byte>
    var bodyBytes: nat

    ghost predicate Valid()
      reads this, header, body
    {
      && header.Length == 4 && headerBytes <= 4
      && (body == null ==> bodyBytes == 0 && (headerBytes == 4 ==> Length(header[..]) > MAX_MESSAGE_SIZE))
      && (body != null ==>
            body != header && headerBytes == 4 && body.Length == Length(header[..]) <= MAX_MESSAGE_SIZE && bodyBytes < body.Length)
    }

    /** The bytes received and not yet delivered. */
    ghost function Buffered(): Bytes
      requires header.Length == 4 && headerBytes <= 4 && (body != null ==> bodyBytes <= body.Length)
      reads this, header, body
    {
      header[..headerBytes] + if body == null then [] else body[..bodyBytes]
    }

    constructor ()
      ensures Valid() && Buffered() == [] && fresh(header)
    {
      header := new byte[4];
      headerBytes, body, bodyBytes := 0, null, 0;
    }

    /** Take header bytes from the chunk. */
    method FillHeader(chunk: Bytes, offset: nat) returns (next: nat)
      requires header.Length == 4 && headerBytes <= 4 && body == null && offset < |chunk|
      modifies this`headerBytes, header
      ensures offset <= next <= |chunk| && old(headerBytes) <= headerBytes <= 4
      ensures headerBytes < 4 ==> next == |chunk|
      ensures old(headerBytes) < 4 ==> offset < next
      ensures Buffered() + chunk[next..] == old(Buffered()) + chunk[offset..]
      ensures old(headerBytes) == 4 ==> header[..] == old(header[..])
    {
      ghost var before := Buffered();
      var count := if 4 - headerBytes < |chunk| - offset then 4 - headerBytes else |chunk| - offset;
      Blit(header, headerBytes, chunk[offset..offset + count]);
      headerBytes := headerBytes + count;
      next := offset + count;
      assert header[..headerBytes] == header[..old(headerBytes)] + header[old(headerBytes)..headerBytes];
      assert Buffered() == before + chunk[offset..next];
      assert chunk[offset..] == chunk[offset..next] + chunk[next..];
    }

    /** Take body bytes from the chunk. */
    method FillBody(chunk: Bytes, offset: nat) returns (count: nat)
      requires body != null && bodyBytes <= body.Length && offset <= |chunk|
      modifies this`bodyBytes, body
      ensures body == old(body)
      ensures count == (if body.Length - old(bodyBytes) < |chunk| - offset then body.Length - old(bodyBytes) else |chunk| - offset)
      ensures bodyBytes == old(bodyBytes) + count
      ensures body[..bodyBytes] == old(body[..bodyBytes]) + chunk[offset..offset + count]
    {
      count := if body.Length - bodyBytes < |chunk| - offset then body.Length - bodyBytes else |chunk| - offset;
      Blit(body, bodyBytes, chunk[offset..offset + count]);
      bodyBytes := bodyBytes + count;
      assert body[..bodyBytes] == body[..old(bodyBytes)] + body[old(bodyBytes)..bodyBytes];
    }

    static lemma JoinMiddle(head: Bytes, body: Bytes, more: Bytes, rest: Bytes)
      ensures (head + body) + (more + rest) == (head + (body + more)) + rest
    {
    }

    /** With its header complete, take the body; a filled body is a frame. */
    method TakeBody(chunk: Bytes, offset: nat) returns (next: nat, frame: Option<Bytes>)
      requires header.Length == 4 && headerBytes == 4 && body != null && body != header && offset <= |chunk|
      requires body.Length == Length(header[..]) <= MAX_MESSAGE_SIZE && bodyBytes <= body.Length
      requires bodyBytes < body.Length || body.Length == 0
      modifies this, body
      ensures Valid() && offset <= next <= |chunk| && (old(bodyBytes) < old(body.Length) && offset < |chunk| ==> offset < next)
      ensures body == old(body) || body == null
      ensures frame.None? ==> next == |chunk| && Buffered() == old(Buffered()) + chunk[offset..]
                              && ScanOf(Buffered()) == Scan([], Buffered(), false)
      ensures frame.Some? ==> Buffered() == [] &&
                              ScanOf(old(Buffered()) + chunk[offset..]) == Prepend([frame.value], ScanOf(chunk[next..]))
    {
      ghost var stream := Buffered() + chunk[offset..];
      var count := FillBody(chunk, offset);
      next := offset + count;
      assert chunk[offset..] == chunk[offset..next] + chunk[next..];
      JoinMiddle(header[..4], old(body[..bodyBytes]), chunk[offset..next], chunk[next..]);
      assert stream == Buffered() + chunk[next..];
      assert header[..4] == header[..];
      assert stream[..4] == header[..];
      if bodyBytes != body.Length {
        assert Buffered()[..4] == header[..];
        return next, None;
      }
      frame := Some(body[..]);
      assert stream[4..4 + body.Length] == body[..] && stream[4 + body.Length..] == chunk[next..];
      body := null;
      bodyBytes, headerBytes := 0, 0;
    }

    /** Complete the header and allocate the body it announces, unless it is over-size or still partial. */
    method StartBody(chunk: Bytes, offset: nat) returns (next: nat, status: HeaderStatus)
      requires Valid() && body == null && offset < |chunk|
      modifies this, header
      ensures offset <= next <= |chunk| && headerBytes <= 4 && (body != null ==> bodyBytes <= body.Length)
      ensures Buffered() + chunk[next..] == old(Buffered()) + chunk[offset..]
      ensures status != Ready ==> Valid() && body == null
      ensures status.Partial? ==> next == |chunk| && headerBytes < 4
      ensures status.OverSize? ==> headerBytes == 4 && Length(header[..]) > MAX_MESSAGE_SIZE
      ensures status.Ready? ==> offset < next && headerBytes == 4 && body != null && fresh(body) && bodyBytes == 0
                                && body.Length == Length(header[..]) <= MAX_MESSAGE_SIZE
    {
      hide Length;
      next := FillHeader(chunk, offset);
      if headerBytes < 4 { return next, Partial; }
      var length := Length(header[..]);
      if length > MAX_MESSAGE_SIZE { return next, OverSize; }
      body := new byte[length];
      bodyBytes := 0;
      status := Ready;
    }

    /** `push`: the frames the chunk completes, or a FrameError, which loses them. */
    method Push(chunk: Bytes) returns (frames: Option<seq<Bytes>>)
      requires Valid()
      modifies this, header, body
      ensures Valid() && (body == old(body) || body == null || fresh(body))
      ensures var s := ScanOf(old(Buffered()) + chunk);
              Buffered() == s.rest && frames == if s.bad && chunk != [] then None else Some(s.frames)
    {
      hide Length, ScanOf, Prepend;
      ghost var stream := Buffered() + chunk;
      var done: seq<Bytes> := [];
      var offset := 0;
      assert chunk[0..] == chunk;
      Prepended(ScanOf(stream));
      while offset < |chunk|
        invariant Valid() && offset <= |chunk|
        invariant body == old(body) || body == null || fresh(body)
        invariant ScanOf(stream) == Prepend(done, ScanOf(Buffered() + chunk[offset..]))
        invariant offset > 0 ==> body == null && Buffered() == []
        decreases |chunk| - offset
      {
        if body == null {
          var status;
          offset, status := StartBody(chunk, offset);
          if status.Partial? { break; }
          if status.OverSize? {
            OverSized(header[..], chunk[offset..], done);
            return None;
          }
        }
        var frame;
        offset, frame := TakeBody(chunk, offset);
        if frame.None? { break; }
        assert [] + chunk[offset..] == chunk[offset..];
        PrependTwice(done, frame.value, ScanOf(chunk[offset..]));
        done := done + [frame.value];
      }
      assert Buffered() + chunk[offset..] == Buffered();
      Incomplete();
      NothingMore(done, Buffered(), body == null && headerBytes == 4);
      frames := Some(done);
    }

    /** A decoder between two chunks holds no complete frame. */
    lemma Incomplete()
      requires Valid()
      ensures ScanOf(Buffered()) == Scan([], Buffered(), body == null && headerBytes == 4)
    {
      assert header[..4] == header[..];
      if headerBytes == 4 { assert Buffered()[..4] == header[..]; }
    }
  }

  datatype HeaderStatus = Partial | OverSize | Ready

  lemma OverSized(h: Bytes, tail: Bytes, done: seq<Bytes>)
    requires |h| == 4 && Length(h) > MAX_MESSAGE_SIZE
    ensures Prepend(done, ScanOf(h[..4] + [] + tail)).rest == h && Prepend(done, ScanOf(h[..4] + [] + tail)).bad
  {
    assert (h[..4] + [] + tail)[..4] == h;
  }

  lemma NothingMore(done: seq<Bytes>, rest: Bytes, bad: bool)
    ensures Prepend(done, Scan([], rest, bad)) == Scan(done, rest, bad)
  {
    assert done + [] == done;
  }

  lemma Prepended(s: Scan)
    ensures Prepend([], s) == s
  {
  }

  lemma PrependTwice(done: seq<Bytes>, frame: Bytes, s: Scan)
    ensures Prepend(done, Prepend([frame], s)) == Prepend(done + [frame], s)
  {
    assert done + ([frame] + s.frames) == done + [frame] + s.frames;
  }

  function Prepend(frames: seq<Bytes>, s: Scan): Scan {
    Scan(frames + s.frames, s.rest, s.bad)
  }

  // ----- Any fragmentation -----

  /** Pushing a list of chunks one after the other, from a decoder holding `buffered`. */
  function Feed(buffered: Bytes, chunks: seq<Bytes>): Scan
    decreases |chunks|
  {
    if chunks == [] then Scan([], buffered, false)
    else
      var s := ScanOf(buffered + chunks[0]);
      if s.bad && chunks[0] != [] then s else Prepend(s.frames, Feed(s.rest, chunks[1..]))
  }

  function Concat(chunks: seq<Bytes>): Bytes {
    if chunks == [] then [] else chunks[0] + Concat(chunks[1..])
  }

  /** However a good stream is cut, feeding the pieces is scanning the whole. */
  lemma {:induction false} FeedIsScan(buffered: Bytes, chunks: seq<Bytes>)
    requires !ScanOf(buffered + Concat(chunks)).bad && ScanOf(buffered) == Scan([], buffered, false)
    ensures Feed(buffered, chunks) == ScanOf(buffered + Concat(chunks))
    decreases |chunks|
  {
    if chunks == [] {
      assert buffered + [] == buffered;
    } else {
      var first := buffered + chunks[0];
      assert buffered + Concat(chunks) == first + Concat(chunks[1..]);
      ScanSplit(first, Concat(chunks[1..]));
      RestIsSuffix(first);
      hide ScanOf;
      FeedIsScan(ScanOf(first).rest, chunks[1..]);
    }
  }

  /** Fragmentation independence: any split of the concatenated encodings decodes to exactly the payloads. */
  lemma {:induction false} Fragmented(payloads: seq<Bytes>, chunks: seq<Bytes>)
    requires forall p :: p in payloads ==> |p| <= MAX_MESSAGE_SIZE
    requires Concat(chunks) == Stream(payloads)
    ensures Feed([], chunks) == Scan(payloads, [], false)
  {
    RoundTrip(payloads);
    assert [] + Concat(chunks) == Concat(chunks);
    hide Stream, Concat;
    FeedIsScan([], chunks);
  }

  /** A pushed prefix leaves exactly its undecoded suffix in the decoder, whatever the split. */
  lemma {:induction false} StateIsSuffix(chunks: seq<Bytes>)
    requires !ScanOf(Concat(chunks)).bad
    ensures var s := Feed([], chunks);
            (forall p :: p in s.frames ==> |p| <= MAX_MESSAGE_SIZE) && Stream(s.frames) + s.rest == Concat(chunks)
  {
    assert [] + Concat(chunks) == Concat(chunks);
    FeedIsScan([], chunks);
    RestIsSuffix(Concat(chunks));
  }

  /** An over-size header is remembered: it makes every later push of a nonempty chunk fail too. */
  lemma {:induction false} Poisoned(stream: Bytes, chunk: Bytes)
    requires ScanOf(stream).bad
    ensures ScanOf(ScanOf(stream).rest + chunk) == Scan([], ScanOf(stream).rest, true)
  {
    BadRest(stream);
    var rest := ScanOf(stream).rest;
    assert (rest + chunk)[..4] == rest;
  }

  lemma {:induction false} BadRest(stream: Bytes)
    requires ScanOf(stream).bad
    ensures |ScanOf(stream).rest| == 4 && Length(ScanOf(stream).rest) > MAX_MESSAGE_SIZE
  {
    hide Length;
    if StartsWithFrame(stream) {
      Opened(stream);
      BadRest(stream[4 + Length(stream[..4])..]);
    }
  }

  /** A socket's reads, in order: for any cut of a stream of frames, the pushes return its payloads. */
  method Receive(decoder: FrameDecoder, chunks: seq<Bytes>, ghost payloads: seq<Bytes>) returns (received: seq<Bytes>)
    requires decoder.Valid() && decoder.Buffered() == []
    requires (forall p :: p in payloads ==> |p| <= MAX_MESSAGE_SIZE) && Concat(chunks) == Stream(payloads)
    modifies decoder, decoder.header, decoder.body
    ensures received == payloads && decoder.Valid() && decoder.Buffered() == []
  {
    received := [];
    RoundTrip(payloads);
    Fragmented(payloads, chunks);
    assert chunks[0..] == chunks && [] + Concat(chunks) == Concat(chunks);
    Prepended(Feed([], chunks));
    hide Length, Stream;
    for k := 0 to |chunks|
      invariant decoder.Valid() && (decoder.body == old(decoder.body) || decoder.body == null || fresh(decoder.body))
      invariant !ScanOf(decoder.Buffered() + Concat(chunks[k..])).bad
      invariant ScanOf(decoder.Buffered()) == Scan([], decoder.Buffered(), false)
      invariant Prepend(received, Feed(decoder.Buffered(), chunks[k..])) == Scan(payloads, [], false)
    {
      FeedStep(decoder.Buffered(), chunks[k..], received);
      assert chunks[k..][1..] == chunks[k + 1..];
      hide ScanOf, Feed, Concat, Prepend;
      var frames := decoder.Push(chunks[k]);
      received := received + frames.value;
    }
    NothingMore(received, decoder.Buffered(), false);
  }

  /** One push of a good stream. */
  lemma FeedStep(buffered: Bytes, chunks: seq<Bytes>, done: seq<Bytes>)
    requires chunks != [] && !ScanOf(buffered + Concat(chunks)).bad
    ensures var s := ScanOf(buffered + chunks[0]);
            && !s.bad && ScanOf(s.rest) == Scan([], s.rest, false) && !ScanOf(s.rest + Concat(chunks[1..])).bad
            && Prepend(done, Feed(buffered, chunks)) == Prepend(done + s.frames, Feed(s.rest, chunks[1..]))
  {
    hide Length, ScanOf, Stream, Prepend;
    var first := buffered + chunks[0];
    assert buffered + Concat(chunks) == first + Concat(chunks[1..]);
    ScanSplit(first, Concat(chunks[1..]));
    RestIsSuffix(first);
    PrependSplit(done, ScanOf(first).frames, Feed(ScanOf(first).rest, chunks[1..]));
  }

  lemma PrependSplit(done: seq<Bytes>, frames: seq<Bytes>, s: Scan)
    ensures Prepend(done, Prepend(frames, s)) == Prepend(done + frames, s)
  {
    assert done + (frames + s.frames) == done + frames + s.frames;
  }
}
