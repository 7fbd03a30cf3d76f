/**
 Optional compression of large successful responses, and the handshake that
 negotiates it. JSON, gzip and base64 are function values with the laws the program
 relies on.
 */
module PeerCompression {
  import opened Base
  import opened Peer
  import opened PeerFraming

  const MAX_GZIP_RESPONSE: nat := 32 * 1024 * 1024
  const MIN_GZIP_RESPONSE: nat := 64 * 1024

  datatype WireFrame =
    | PlainResponse(id: string, response: Response)
    | GzipResponse(id: string, expandedBytes: nat, payload: Bytes)

  datatype Coding = Coding(
    chunks: Response -> seq<Bytes>, json: Response -> Bytes, unjson: Bytes -> Option<Response>, quote: string -> Bytes,
    gzip: Bytes -> Option<Bytes>, expand: (Bytes, nat) -> Option<Bytes>,
    base64: Bytes -> Bytes, unbase64: Bytes -> Option<Bytes>,
    parse: Bytes -> Option<WireFrame>)

  /** The document of a frame: its tag, its identity and its content. */
  function Document(c: Coding, f: WireFrame): Bytes {
    match f
    case PlainResponse(id, response) =>
      Ascii("{\"type\":\"response\",\"id\":") + c.quote(id) + Ascii(",\"response\":") + c.json(response) + Ascii("}")
    case GzipResponse(id, n, payload) =>
      Ascii("{\"type\":\"response-gzip\",\"id\":") + c.quote(id) + Ascii(",\"expanded_bytes\":") + Decimal(n)
      + Ascii(",\"payload\":\"") + payload + Ascii("\"}")
  }

  function CeilThird(n: nat): nat { (n + 2) / 3 }

  ghost predicate JsonLaw(c: Coding) {
    forall r :: c.unjson(c.json(r)) == Some(r) && NEWLINE !in c.json(r) && c.json(r) == Concat(c.chunks(r))
  }

  ghost predicate QuoteLaw(c: Coding) { forall id :: NEWLINE !in c.quote(id) }

  /** The first `n` bytes, or all of them. */
  function UpTo(b: Bytes, n: nat): Bytes { if |b| > n then b[..n] else b }

  /**
   Expanding up to a limit gives no more than that, and of a compressed text its first
   bytes. It fails only for an error it meets before the limit.
   */
  ghost predicate GzipLaw(c: Coding) {
    && (forall b, n :: c.gzip(b).Some? ==> c.expand(c.gzip(b).value, n) == Some(UpTo(b, n)))
    && (forall z, n :: c.expand(z, n).Some? ==> |c.expand(z, n).value| <= n)
  }

  ghost predicate Base64Law(c: Coding) {
    forall b ::
      c.unbase64(c.base64(b)) == Some(b) && |c.base64(b)| == CeilThird(|b|) * 4 && NEWLINE !in c.base64(b)
  }

  /** A frame as the encoder makes them: its payload is base64 and needs no escaping. */
  ghost predicate Encodable(c: Coding, f: WireFrame) {
    f.GzipResponse? ==> f.expandedBytes <= MAX_GZIP_RESPONSE && exists z :: f.payload == c.base64(z)
  }

  ghost predicate ParseLaw(c: Coding) { forall f :: Encodable(c, f) ==> c.parse(Document(c, f) + [NEWLINE]) == Some(f) }

  ghost predicate Lawful(c: Coding) {
    JsonLaw(c) && QuoteLaw(c) && GzipLaw(c) && Base64Law(c) && ParseLaw(c)
  }

  // ----- Encoding and decoding -----

  /** A large successful response is compressed when that makes the frame smaller. */
  function EncodeResponse(c: Coding, id: string, response: Response, negotiated: bool): WireFrame {
    var json := c.json(response);
    if negotiated && response.ok && MIN_GZIP_RESPONSE <= |json| <= MAX_GZIP_RESPONSE then
      match c.gzip(json)
      case None => PlainResponse(id, response)
      case Some(z) =>
        if CeilThird(|z|) * 4 + 256 < |json| then GzipResponse(id, |json|, c.base64(z)) else PlainResponse(id, response)
    else PlainResponse(id, response)
  }

  datatype DecodeError = NotNegotiated | BadBase64 | BadGzip | LengthMismatch | BadJson | CompressedError

  function DecodeResponse(c: Coding, f: WireFrame, negotiated: bool, maximum: nat): Result<WireFrame, DecodeError> {
    match f
    case PlainResponse(_, _) => Ok(f)
    case GzipResponse(id, expanded, payload) =>
      if !negotiated || expanded > maximum || expanded < MIN_GZIP_RESPONSE || expanded > MAX_GZIP_RESPONSE
        || |payload| > CeilThird(MAX_GZIP_RESPONSE) * 4 then Err(NotNegotiated)
      else
        match c.unbase64(payload)
        case None => Err(BadBase64)
        case Some(z) =>
          match c.expand(z, expanded + 1)
          case None => Err(BadGzip)
          case Some(bytes) =>
            if |bytes| != expanded then Err(LengthMismatch)
            else
              match c.unjson(bytes)
              case None => Err(BadJson)
              case Some(response) => if response.ok then Ok(PlainResponse(id, response)) else Err(CompressedError)
  }

  /** The encoder measures a response while it is written, before it compresses anything. */
  method EncodeResponseFrame(c: Coding, id: string, response: Response, negotiated: bool) returns (f: WireFrame)
    requires JsonLaw(c)
    ensures f == EncodeResponse(c, id, response, negotiated)
  {
    assert c.json(response) == Concat(c.chunks(response));
    f := PlainResponse(id, response);
    if negotiated && response.ok {
      var size := MeasureBounded(c.chunks(response), MAX_GZIP_RESPONSE);
      if size.Some? && size.value >= MIN_GZIP_RESPONSE {
        var z := c.gzip(c.json(response));
        if z.Some? && (|z.value| + 2) / 3 * 4 + 256 < size.value {
          f := GzipResponse(id, size.value, c.base64(z.value));
        }
      }
    }
  }

  /** The decoder expands at most one byte past the declared size, which is within both
      limits; `held` is how much it ever expanded, whatever the frame. */
  method DecodeResponseFrame(c: Coding, f: WireFrame, negotiated: bool, maximum: nat)
    returns (r: Result<WireFrame, DecodeError>, held: nat)
    requires GzipLaw(c)
    ensures r == DecodeResponse(c, f, negotiated, maximum)
    ensures held <= maximum + 1 && held <= MAX_GZIP_RESPONSE + 1
    ensures r.Ok? && f.GzipResponse? ==> held == f.expandedBytes
    ensures r.Err? && r.error.NotNegotiated? ==> held == 0
  {
    held := 0;
    if f.PlainResponse? {
      return Ok(f), held;
    }
    if !negotiated || f.expandedBytes > maximum || f.expandedBytes < MIN_GZIP_RESPONSE
      || f.expandedBytes > MAX_GZIP_RESPONSE || |f.payload| > CeilThird(MAX_GZIP_RESPONSE) * 4 {
      return Err(NotNegotiated), held;
    }
    var compressed := c.unbase64(f.payload);
    if compressed.None? {
      return Err(BadBase64), held;
    }
    var bytes := c.expand(compressed.value, f.expandedBytes + 1);
    if bytes.None? {
      return Err(BadGzip), held;
    }
    held := |bytes.value|;
    if held != f.expandedBytes {
      return Err(LengthMismatch), held;
    }
    var response := c.unjson(bytes.value);
    if response.None? {
      return Err(BadJson), held;
    }
    if !response.value.ok {
      return Err(CompressedError), held;
    }
    return Ok(PlainResponse(f.id, response.value)), held;
  }

  /** What is sent for a response: itself, or a failure when its plain frame is too long. */
  function Outgoing(c: Coding, id: string, response: Response, negotiated: bool, maximum: nat): WireFrame {
    if EncodeFrame(Document(c, PlainResponse(id, response)), maximum).Some? then EncodeResponse(c, id, response, negotiated)
    else EncodeResponse(c, id, Response(response.requestId, false, "PEER_FRAME_TOO_LARGE"), negotiated)
  }

  // ----- Theorems -----

  /** A compressed frame is shorter than the plain frame it stands for. */
  lemma ChosenFrameIsNotLonger(c: Coding, id: string, response: Response, negotiated: bool)
    requires Base64Law(c)
    ensures |Document(c, EncodeResponse(c, id, response, negotiated))| <= |Document(c, PlainResponse(id, response))|
    ensures EncodeResponse(c, id, response, negotiated).GzipResponse? ==>
      |Document(c, EncodeResponse(c, id, response, negotiated))| + 200 < |Document(c, PlainResponse(id, response))|
  {
    var f := EncodeResponse(c, id, response, negotiated);
    if f.GzipResponse? {
      assert Power10(8) == 100_000_000 by {
        assert Power10(4) == 10_000;
      }
      DecimalLength(f.expandedBytes, 8);
    }
  }

  /** Decoding gives back the response exactly when its size is within the receiver's limit. */
  lemma DecodesIffWithinLimit(c: Coding, id: string, response: Response, negotiated: bool, maximum: nat)
    requires JsonLaw(c) && GzipLaw(c) && Base64Law(c)
    ensures var f := EncodeResponse(c, id, response, negotiated);
      DecodeResponse(c, f, negotiated, maximum) ==
      if f.PlainResponse? || |c.json(response)| <= maximum then Ok(PlainResponse(id, response)) else Err(NotNegotiated)
  {
    var f := EncodeResponse(c, id, response, negotiated);
    if f.GzipResponse? {
      var z := c.gzip(c.json(response)).value;
      assert c.unbase64(c.base64(z)) == Some(z);
      assert c.expand(z, |c.json(response)| + 1) == Some(UpTo(c.json(response), |c.json(response)| + 1));
      assert |f.payload| < MAX_GZIP_RESPONSE;
    }
  }

  /** What a compressed frame can make the receiver hold is bounded by both limits. */
  lemma DecodedIsBounded(c: Coding, f: WireFrame, negotiated: bool, maximum: nat)
    requires f.GzipResponse? && DecodeResponse(c, f, negotiated, maximum).Ok?
    ensures negotiated && f.expandedBytes <= maximum && MIN_GZIP_RESPONSE <= f.expandedBytes <= MAX_GZIP_RESPONSE
    ensures exists bytes ::
      && |bytes| == f.expandedBytes
      && c.unjson(bytes) == Some(DecodeResponse(c, f, negotiated, maximum).value.response)
    ensures DecodeResponse(c, f, negotiated, maximum).value.PlainResponse?
    ensures DecodeResponse(c, f, negotiated, maximum).value.id == f.id
    ensures DecodeResponse(c, f, negotiated, maximum).value.response.ok
  {
    var bytes := c.expand(c.unbase64(f.payload).value, f.expandedBytes + 1).value;
    assert |bytes| == f.expandedBytes;
  }

  lemma AsciiClean(s: string)
    requires '\n' !in s
    ensures NEWLINE !in Ascii(s)
  {
    forall i | 0 <= i < |s| ensures Ascii(s)[i] != NEWLINE {
      assert s[i] in s;
    }
  }

  lemma PlainIsClean(c: Coding, id: string, response: Response)
    requires JsonLaw(c) && QuoteLaw(c)
    ensures NEWLINE !in Document(c, PlainResponse(id, response))
  {
    hide Ascii;
    AsciiClean("{\"type\":\"response\",\"id\":");
    AsciiClean(",\"response\":");
    AsciiClean("}");
    assert NEWLINE !in c.quote(id) && NEWLINE !in c.json(response);
  }

  lemma GzipIsClean(c: Coding, id: string, n: nat, payload: Bytes)
    requires QuoteLaw(c) && NEWLINE !in payload && n <= MAX_GZIP_RESPONSE
    ensures NEWLINE !in Document(c, GzipResponse(id, n, payload))
  {
    hide Ascii;
    AsciiClean("{\"type\":\"response-gzip\",\"id\":");
    AsciiClean(",\"expanded_bytes\":");
    AsciiClean(",\"payload\":\"");
    AsciiClean("\"}");
    DecimalDigits(n);
    assert NEWLINE !in c.quote(id);
  }

  lemma DocumentHasNoNewline(c: Coding, id: string, response: Response, negotiated: bool)
    requires JsonLaw(c) && QuoteLaw(c) && Base64Law(c)
    ensures NEWLINE !in Document(c, EncodeResponse(c, id, response, negotiated))
  {
    hide Document;
    var f := EncodeResponse(c, id, response, negotiated);
    if f.GzipResponse? {
      assert NEWLINE !in f.payload;
      GzipIsClean(c, id, f.expandedBytes, f.payload);
    } else {
      PlainIsClean(c, id, response);
    }
  }

  /** What the receiver makes of a stream that starts with the frame `f`. */
  function Received(c: Coding, stream: Bytes, negotiated: bool, maximum: nat): Option<WireFrame> {
    match ReadFrame(stream, maximum)
    case Err(_) => None
    case Ok(line) =>
      match c.parse(line)
      case None => None
      case Some(f) =>
        match DecodeResponse(c, f, negotiated, maximum)
        case Err(_) => None
        case Ok(plain) => Some(plain)
  }

  /**
   Transparency over the wire: with the same limit and the same flag at both ends, a
   response whose plain frame fits is encoded within the limit and arrives unchanged.
   */
  lemma CompressionIsTransparent(
    c: Coding, id: string, response: Response, negotiated: bool, maximum: nat, rest: Bytes)
    requires Lawful(c) && EncodeFrame(Document(c, PlainResponse(id, response)), maximum).Some?
    ensures var f := Outgoing(c, id, response, negotiated, maximum);
      && EncodeFrame(Document(c, f), maximum).Some?
      && Received(c, EncodeFrame(Document(c, f), maximum).value + rest, negotiated, maximum) == Some(PlainResponse(id, response))
  {
    hide Document, DecodeResponse, Received, GzipLaw, ParseLaw;
    var f := EncodeResponse(c, id, response, negotiated);
    ChosenFrameIsNotLonger(c, id, response, negotiated);
    DocumentHasNoNewline(c, id, response, negotiated);
    FrameIsReceived(c, f, negotiated, maximum, rest);
    DecodesIffWithinLimit(c, id, response, negotiated, maximum);
    PlainHoldsJson(c, id, response);
  }

  lemma PlainHoldsJson(c: Coding, id: string, response: Response)
    ensures |c.json(response)| <= |Document(c, PlainResponse(id, response))|
  {
  }

  /** A frame within the limit is read, parsed and decoded, whatever follows it. */
  lemma FrameIsReceived(c: Coding, f: WireFrame, negotiated: bool, maximum: nat, rest: Bytes)
    requires ParseLaw(c) && Encodable(c, f) && NEWLINE !in Document(c, f) && |Document(c, f)| < maximum
    ensures var decoded := DecodeResponse(c, f, negotiated, maximum);
      Received(c, Document(c, f) + [NEWLINE] + rest, negotiated, maximum) ==
      if decoded.Ok? then Some(decoded.value) else None
  {
    hide Document, DecodeResponse;
    var doc := Document(c, f);
    var stream := doc + [NEWLINE] + rest;
    assert stream[..|doc|] == doc && stream[..|doc| + 1] == doc + [NEWLINE];
    assert FirstNewline(stream, |doc|);
    ReadFrameIff(stream, maximum);
    assert c.parse(doc + [NEWLINE]) == Some(f);
  }

  /** A response whose plain frame is too long becomes a plain failure, never a compressed one. */
  lemma TooLongBecomesFailure(c: Coding, id: string, response: Response, negotiated: bool, maximum: nat)
    requires EncodeFrame(Document(c, PlainResponse(id, response)), maximum).None?
    ensures Outgoing(c, id, response, negotiated, maximum) ==
      PlainResponse(id, Response(response.requestId, false, "PEER_FRAME_TOO_LARGE"))
  {
  }

  // ----- Handshake -----

  datatype PeerConfig = PeerConfig(
    protocol: string, localId: string, expectedPeerId: string, services: seq<string>, required: seq<string>,
    binding: Option<string>)

  datatype Hello = Hello(protocol: string, nodeId: string, roles: seq<string>, binding: Option<string>, gzip: bool)

  predicate ValidName(name: string) {
    0 < |name| <= 256 && forall ch :: ch in name ==> NameChar(ch)
  }

  predicate NameChar(ch: char) {
    'a' <= ch <= 'z' || 'A' <= ch <= 'Z' || '0' <= ch <= '9' || ch in "._:-"
  }

  predicate Accepts(config: PeerConfig, hello: Hello) {
    && hello.protocol == config.protocol && hello.nodeId == config.expectedPeerId && hello.binding == config.binding
    && |hello.roles| <= 64
    && (forall r :: r in config.required ==> r in hello.roles)
    && (forall r :: r in hello.roles ==> ValidName(r))
  }

  /** `supports` is false for a peer that predates compression and omits the field. */
  function FirstHello(config: PeerConfig, supports: bool): Hello {
    Hello(config.protocol, config.localId, config.services, config.binding, supports)
  }

  function Acknowledgement(config: PeerConfig, hello: Hello, supports: bool): Hello {
    Hello(config.protocol, config.localId, config.services, config.binding, hello.gzip && supports)
  }

  /** The flag an end keeps from the hello it read. */
  function KeptFlag(hello: Hello, supports: bool): bool { hello.gzip && supports }

  /** Either end compresses only what the other will expand, whatever their ages. */
  lemma BothEndsAgree(i: PeerConfig, iSupports: bool, a: PeerConfig, aSupports: bool)
    requires Accepts(a, FirstHello(i, iSupports))
    requires Accepts(i, Acknowledgement(a, FirstHello(i, iSupports), aSupports))
    ensures KeptFlag(FirstHello(i, iSupports), aSupports)
      == KeptFlag(Acknowledgement(a, FirstHello(i, iSupports), aSupports), iSupports)
      == (iSupports && aSupports)
    ensures i.protocol == a.protocol && i.binding == a.binding
    ensures i.expectedPeerId == a.localId && a.expectedPeerId == i.localId
    ensures forall r :: r in i.required ==> r in a.services
    ensures forall r :: r in a.required ==> r in i.services
  {
  }

  /** A handshake completes exactly between two ends that speak one protocol, name each
      other, share their binding, and offer each other what is required, under at most
      sixty-four valid names. */
  lemma HandshakeCompletesIff(i: PeerConfig, iSupports: bool, a: PeerConfig, aSupports: bool)
    ensures
      var hello := FirstHello(i, iSupports);
      Accepts(a, hello) && Accepts(i, Acknowledgement(a, hello, aSupports)) <==>
        && i.protocol == a.protocol && i.binding == a.binding
        && i.expectedPeerId == a.localId && a.expectedPeerId == i.localId
        && |i.services| <= 64 && |a.services| <= 64
        && (forall r :: r in i.services + a.services ==> ValidName(r))
        && (forall r :: r in i.required ==> r in a.services) && (forall r :: r in a.required ==> r in i.services)
  {
    hide ValidName;
    var hello := FirstHello(i, iSupports);
    if Accepts(a, hello) && Accepts(i, Acknowledgement(a, hello, aSupports)) {
      forall r | r in i.services + a.services ensures ValidName(r) {
        assert r in i.services || r in a.services;
      }
    }
    assert forall r :: r in i.services ==> r in i.services + a.services;
    assert forall r :: r in a.services ==> r in i.services + a.services;
  }

  /** A response is sent compressed exactly when both ends agreed, it succeeded, its text is
      between sixty-four kilobytes and thirty-two megabytes, and the compressed payload is
      more than 256 bytes shorter. */
  lemma CompressedIff(c: Coding, id: string, response: Response, negotiated: bool)
    requires Base64Law(c)
    ensures
      var n := |c.json(response)|;
      EncodeResponse(c, id, response, negotiated).GzipResponse? <==>
        && negotiated && response.ok && 65_536 <= n <= 33_554_432
        && c.gzip(c.json(response)).Some? && |c.base64(c.gzip(c.json(response)).value)| + 256 < n
  {
  }
}
