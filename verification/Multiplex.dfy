/** The CSR1 envelope: its encoder, its three parsers, its framing and the browser decoder of the
    documentation, the JSON projection, and the frame object that caches it. */
module Multiplex {
  import opened Bytes
  import opened Wrappers
  import Base64
  import Utf8
  import TextDecoder

  const MAGIC: Data := [0x43, 0x53, 0x52, 0x31]
  const HEADER_LEN: nat := 27

  /** A message as the upstream sent it. */
  datatype RawFrame = Text(text: Utf8.Str) | Binary(data: Data) {
    function Kind(): Byte { if Text? then 1 else 2 }

    function Payload(): Data { if Text? then text else data }
  }

  /** What an envelope carries. */
  datatype Fields = Fields(kind: Byte, source: Data, sequence: U64, timestampMs: U64, payload: Data)

  /** Both length fields hold the length they were given: `as u16` and `as u32` cut nothing. */
  predicate Fits(f: Fields) {
    |f.source| < U16_SIZE && |f.payload| < U32_SIZE
  }

  function EncodeFrame(f: Fields): Data {
    MAGIC + [f.kind] + PutUint(2, |f.source| % U16_SIZE) + PutUint(8, f.sequence)
    + PutUint(8, f.timestampMs) + PutUint(4, |f.payload| % U32_SIZE) + f.source + f.payload
  }

  method EncodeMultiplexFrame(source: Utf8.Str, sequence: U64, receivedAtMs: U64, kind: Byte, payload: Data)
    returns (output: Data)
    ensures output == EncodeFrame(Fields(kind, source, sequence, receivedAtMs, payload))
  {
    output := MAGIC;
    output := output + [kind];
    output := output + PutUint(2, |source| % U16_SIZE);
    output := output + PutUint(8, sequence);
    output := output + PutUint(8, receivedAtMs);
    output := output + PutUint(4, |payload| % U32_SIZE);
    output := output + source;
    output := output + payload;
  }

  // ----- Parsing -----

  predicate HasHeader(frame: Data) {
    |frame| >= HEADER_LEN && frame[..4] == MAGIC
  }

  function SourceEnd(frame: Data): nat
    requires HasHeader(frame)
  {
    HEADER_LEN + GetUint(frame[5..7])
  }

  function PayloadEnd(frame: Data): nat
    requires HasHeader(frame)
  {
    SourceEnd(frame) + GetUint(frame[23..27])
  }

  function ReadU64(s: Data): U64
    requires |s| == 8
  {
    Widths();
    GetUintBound(s);
    GetUint(s)
  }

  function SourceIdFromFrame(frame: Data): Option<Data> {
    if !HasHeader(frame) || SourceEnd(frame) > |frame| then None
    else
      var source := frame[HEADER_LEN..SourceEnd(frame)];
      if Utf8.Valid(source) then Some(source) else None
  }

  function PayloadBytesFromFrame(frame: Data): Option<Data> {
    if !HasHeader(frame) || frame[4] != 1 || PayloadEnd(frame) > |frame| then None
    else Some(frame[SourceEnd(frame)..PayloadEnd(frame)])
  }

  /** The framing of an envelope, byte by byte: the lengths must account for every byte. */
  function StrictDecode(frame: Data): Option<Fields> {
    if !HasHeader(frame) || PayloadEnd(frame) != |frame| then None
    else
      Some(Fields(frame[4], frame[HEADER_LEN..SourceEnd(frame)], ReadU64(frame[7..15]),
                  ReadU64(frame[15..23]), frame[SourceEnd(frame)..]))
  }

  /** What the documented decoder makes of the fields it cuts out: text decoding of the source
      and of the payload of a text message. Texts are given by their UTF-8 bytes. */
  function Shown(f: Fields): Fields {
    f.(source := TextDecoder.Decode(f.source),
       payload := if f.kind == 1 then TextDecoder.Decode(f.payload) else f.payload)
  }

  /** The decoder printed in the documentation. */
  function DocumentedDecode(frame: Data): Option<Fields> {
    match StrictDecode(frame)
    case Some(f) => Some(Shown(f))
    case None => None
  }

  /** Text decoding leaves these fields alone. */
  predicate ShownAsIs(f: Fields) {
    TextDecoder.Survives(f.source) && (f.kind == 1 ==> TextDecoder.Survives(f.payload))
  }

  // ----- JSON projection -----

  datatype Encoding = Json | Utf8Text | Base64Text

  datatype Projection = Projection(source: Data, sequence: U64, timestampMs: U64, kind: Byte,
                                   encoding: Encoding, payload: Data)

  /** Payload-borne JSON as the JSON library sees it: `rawValue` gives the text of the one
      JSON value a text consists of, `probe` the fields the filters look at, and `toJson`
      renders a projection. */
  datatype Library = Library(
    rawValue: Data -> Option<Data>,
    probe: Data -> Option<Probe>,
    toJson: Projection -> Data)

  datatype Probe = Probe(data: Option<ProbeData>)

  datatype ProbeData = ProbeData(hash: Option<Data>, payloadTypeName: Option<Data>)

  function DecodeFrameJson(lib: Library, frame: Data): Option<Projection> {
    if !HasHeader(frame) || PayloadEnd(frame) > |frame| then None
    else
      var source := frame[HEADER_LEN..SourceEnd(frame)];
      if !Utf8.Valid(source) then None
      else
        var bytes := frame[SourceEnd(frame)..PayloadEnd(frame)];
        var (encoding, payload) :=
          if Utf8.Valid(bytes) && frame[4] == 1 then
            match lib.rawValue(bytes)
            case Some(raw) => (Json, raw)
            case None => (Utf8Text, bytes)
          else (Base64Text, Base64.Encode(bytes));
        Some(Projection(source, ReadU64(frame[7..15]), ReadU64(frame[15..23]), frame[4], encoding, payload))
  }

  /** The payload a JSON client reads back; `None` when its Base64 is malformed. For `Json`
      this is the text of the embedded value. */
  function ReadPayload(p: Projection): Option<Data> {
    if p.encoding == Base64Text then Base64.Decode(p.payload) else Some(p.payload)
  }

  // ----- Round trips -----

  /** Where the pieces of an envelope lie. */
  lemma Pieces(kind: Byte, p: Data, q: Data, r: Data, t: Data, body: Data)
    requires |p| == 2 && |q| == |r| == 8 && |t| == 4
    ensures var e := MAGIC + [kind] + p + q + r + t + body;
            && |e| == HEADER_LEN + |body| && e[..4] == MAGIC && e[4] == kind
            && e[5..7] == p && e[7..15] == q && e[15..23] == r && e[23..27] == t && e[HEADER_LEN..] == body
  {
  }

  lemma HeaderOfEncoded(f: Fields)
    ensures var e := EncodeFrame(f);
            && HasHeader(e) && e[4] == f.kind
            && SourceEnd(e) == HEADER_LEN + |f.source| % U16_SIZE
            && PayloadEnd(e) == SourceEnd(e) + |f.payload| % U32_SIZE
            && ReadU64(e[7..15]) == f.sequence && ReadU64(e[15..23]) == f.timestampMs
            && |e| == HEADER_LEN + |f.source| + |f.payload|
            && e[HEADER_LEN..] == f.source + f.payload
  {
    hide PutUint, GetUint;
    Widths();
    GetPut(2, |f.source| % U16_SIZE);
    GetPut(8, f.sequence);
    GetPut(8, f.timestampMs);
    GetPut(4, |f.payload| % U32_SIZE);
    var p, q, r, t := PutUint(2, |f.source| % U16_SIZE), PutUint(8, f.sequence), PutUint(8, f.timestampMs),
                      PutUint(4, |f.payload| % U32_SIZE);
    Pieces(f.kind, p, q, r, t, f.source + f.payload);
    assert EncodeFrame(f) == MAGIC + [f.kind] + p + q + r + t + (f.source + f.payload);
  }

  predicate IsBigEndian(s: Data, v: nat) {
    forall i :: 0 <= i < |s| ==> s[i] as nat == v / Pow256(|s| - 1 - i) % 256
  }

  lemma PutUintIsBigEndian(width: nat, v: nat)
    ensures IsBigEndian(PutUint(width, v), v)
  {
    forall i | 0 <= i < width
      ensures PutUint(width, v)[i] as nat == v / Pow256(width - 1 - i) % 256
    {
      PutUintAt(width, v, i);
    }
  }

  /** Where everything lies in an envelope, byte by byte. */
  lemma EnvelopeLayout(f: Fields)
    ensures var e, n := EncodeFrame(f), |f.source|;
            && |e| == 27 + n + |f.payload|
            && e[0] as int == 'C' as int && e[1] as int == 'S' as int
            && e[2] as int == 'R' as int && e[3] as int == '1' as int
            && e[4] == f.kind
            && IsBigEndian(e[5..7], n % U16_SIZE)
            && IsBigEndian(e[7..15], f.sequence)
            && IsBigEndian(e[15..23], f.timestampMs)
            && IsBigEndian(e[23..27], |f.payload| % U32_SIZE)
            && e[27..27 + n] == f.source && e[27 + n..] == f.payload
  {
    hide PutUint, IsBigEndian;
    var p, q, r, t := PutUint(2, |f.source| % U16_SIZE), PutUint(8, f.sequence), PutUint(8, f.timestampMs),
                      PutUint(4, |f.payload| % U32_SIZE);
    Pieces(f.kind, p, q, r, t, f.source + f.payload);
    assert EncodeFrame(f) == MAGIC + [f.kind] + p + q + r + t + (f.source + f.payload);
    PutUintIsBigEndian(2, |f.source| % U16_SIZE);
    PutUintIsBigEndian(8, f.sequence);
    PutUintIsBigEndian(8, f.timestampMs);
    PutUintIsBigEndian(4, |f.payload| % U32_SIZE);
    var e := EncodeFrame(f);
    assert e[0] == e[..4][0] && e[1] == e[..4][1] && e[2] == e[..4][2] && e[3] == e[..4][3];
    assert e[27..27 + |f.source|] == e[27..][..|f.source|] && e[27 + |f.source|..] == e[27..][|f.source|..];
  }

  /** The framing gives back what was encoded exactly when both lengths fit their fields. */
  lemma StrictRoundTrip(f: Fields)
    ensures StrictDecode(EncodeFrame(f)) == Some(f) <==> Fits(f)
    ensures !Fits(f) ==> StrictDecode(EncodeFrame(f)) == None
  {
    hide EncodeFrame, GetUint, PutUint;
    HeaderOfEncoded(f);
    var e := EncodeFrame(f);
    if Fits(f) {
      assert e[HEADER_LEN..SourceEnd(e)] == e[HEADER_LEN..][..|f.source|] == f.source;
      assert e[SourceEnd(e)..] == e[HEADER_LEN..][|f.source|..] == f.payload;
    }
  }

  lemma Reassemble(frame: Data, n: nat)
    requires HEADER_LEN <= n <= |frame|
    ensures frame == frame[..4] + [frame[4]] + frame[5..7] + frame[7..15] + frame[15..23] + frame[23..27]
                     + frame[HEADER_LEN..n] + frame[n..]
  {
    assert frame[..HEADER_LEN] == frame[..4] + [frame[4]] + frame[5..7] + frame[7..15] + frame[15..23] + frame[23..27];
    assert frame[HEADER_LEN..] == frame[HEADER_LEN..n] + frame[n..];
  }

  /** Whatever frame is accepted is the one envelope of the fields cut out of it. */
  lemma StrictReencodes(frame: Data)
    requires StrictDecode(frame).Some?
    ensures Fits(StrictDecode(frame).value)
    ensures EncodeFrame(StrictDecode(frame).value) == frame
  {
    hide PutUint, GetUint;
    var f := StrictDecode(frame).value;
    Widths();
    GetUintBound(frame[5..7]);
    GetUintBound(frame[23..27]);
    PutGet(frame[5..7]);
    PutGet(frame[7..15]);
    PutGet(frame[15..23]);
    PutGet(frame[23..27]);
    Reassemble(frame, SourceEnd(frame));
  }

  lemma MagicIsText()
    ensures TextDecoder.Decode(MAGIC) == MAGIC
  {
    assert MAGIC[1..] == [0x53, 0x52, 0x31] && MAGIC[2..] == [0x52, 0x31] && MAGIC[3..] == [0x31];
    assert Utf8.Valid(MAGIC[3..]) && Utf8.Valid(MAGIC[2..]) && Utf8.Valid(MAGIC[1..]);
    TextDecoder.TextLosesItsMark(MAGIC);
  }

  /** The documented decoder compares the magic as text, which comes to the same. */
  lemma MagicAsText(frame: Data)
    requires |frame| >= 4
    ensures TextDecoder.Decode(frame[..4]) == MAGIC <==> frame[..4] == MAGIC
  {
    hide TextDecoder.Repair;
    MagicIsText();
    var head := frame[..4];
    if TextDecoder.Decode(head) == MAGIC {
      TextDecoder.AsciiIsNotRepaired(if TextDecoder.Marked(head) then head[3..] else head);
    }
  }

  lemma ShownIff(f: Fields)
    ensures Shown(f) == f <==> ShownAsIs(f)
  {
    TextDecoder.DecodesToItselfIff(f.source);
    TextDecoder.DecodesToItselfIff(f.payload);
  }

  /** The documented decoder gives back all five fields exactly when both lengths fit and no text
      field is ill-formed or starts with U+FEFF. */
  lemma DocumentedRoundTrip(f: Fields)
    ensures DocumentedDecode(EncodeFrame(f)) == Some(f) <==> Fits(f) && ShownAsIs(f)
    ensures DocumentedDecode(EncodeFrame(f)).Some? <==> Fits(f)
  {
    hide EncodeFrame, StrictDecode, Shown, ShownAsIs;
    StrictRoundTrip(f);
    ShownIff(f);
  }

  /** No other fields make the envelope of fields that fit. */
  lemma EncodeFrameIsInjective(f: Fields, g: Fields)
    requires Fits(f) && EncodeFrame(g) == EncodeFrame(f)
    ensures g == f
  {
    hide EncodeFrame, GetUint, StrictDecode;
    HeaderOfEncoded(f);
    HeaderOfEncoded(g);
    StrictRoundTrip(f);
    StrictRoundTrip(g);
  }

  /** The fields the documented decoder returns make up the same frame again exactly when its
      text fields are neither ill-formed nor start with U+FEFF. */
  lemma DocumentedReencodes(frame: Data)
    requires DocumentedDecode(frame).Some?
    ensures EncodeFrame(DocumentedDecode(frame).value) == frame <==> ShownAsIs(StrictDecode(frame).value)
  {
    hide EncodeFrame, StrictDecode, ShownAsIs;
    var f := StrictDecode(frame).value;
    StrictReencodes(frame);
    ShownIff(f);
    if EncodeFrame(Shown(f)) == EncodeFrame(f) {
      EncodeFrameIsInjective(f, Shown(f));
    }
  }

  /** A truncated envelope is rejected wherever it is cut. */
  lemma PrefixRejected(lib: Library, f: Fields, n: nat)
    requires Fits(f) && n < |EncodeFrame(f)|
    ensures StrictDecode(EncodeFrame(f)[..n]) == None
    ensures DecodeFrameJson(lib, EncodeFrame(f)[..n]) == None
    ensures PayloadBytesFromFrame(EncodeFrame(f)[..n]) == None
  {
    hide EncodeFrame, GetUint, PutUint;
    HeaderOfEncoded(f);
    var e := EncodeFrame(f);
    if n >= HEADER_LEN {
      assert e[..n][5..7] == e[5..7] && e[..n][23..27] == e[23..27] && e[..n][..4] == e[..4];
    }
  }

  /** The JSON projection loses nothing: its reader gets back every field, with the exact
      payload bytes unless the payload is embedded as a JSON value, and the encoding says
      which of the three cases it is. */
  lemma ProjectionRoundTrip(lib: Library, f: Fields)
    requires Fits(f) && Utf8.Valid(f.source)
    ensures var p := DecodeFrameJson(lib, EncodeFrame(f));
            && p.Some?
            && p.value.source == f.source && p.value.sequence == f.sequence
            && p.value.timestampMs == f.timestampMs && p.value.kind == f.kind
            && (p.value.encoding == Base64Text <==> !(f.kind == 1 && Utf8.Valid(f.payload)))
            && (p.value.encoding == Json <==>
                f.kind == 1 && Utf8.Valid(f.payload) && lib.rawValue(f.payload).Some?)
            && ReadPayload(p.value) ==
               if p.value.encoding == Json then lib.rawValue(f.payload) else Some(f.payload)
  {
    hide EncodeFrame, GetUint, PutUint, Utf8.Valid, Base64.Encode, Base64.Decode;
    HeaderOfEncoded(f);
    Base64.EncodeDecode(f.payload);
    var e := EncodeFrame(f);
    assert e[HEADER_LEN..SourceEnd(e)] == e[HEADER_LEN..][..|f.source|] == f.source;
    assert e[SourceEnd(e)..PayloadEnd(e)] == e[HEADER_LEN..][|f.source|..] == f.payload;
  }

  // ----- Agreement of the parsers -----

  /** The full decoder accepts exactly the frames on which the two partial parsers agree
      there is something to read, and they then read the same bytes. */
  lemma ParsersAgree(lib: Library, frame: Data)
    ensures var p := DecodeFrameJson(lib, frame);
            && (p.Some? ==> SourceIdFromFrame(frame) == Some(p.value.source))
            && (p.Some? && p.value.kind != 1 ==> PayloadBytesFromFrame(frame) == None)
            && (p.Some? && p.value.kind == 1 ==>
                PayloadBytesFromFrame(frame).Some?
                && var bytes := PayloadBytesFromFrame(frame).value;
                   ReadPayload(p.value) == if p.value.encoding == Json then lib.rawValue(bytes) else Some(bytes))
            && (SourceIdFromFrame(frame).Some? && PayloadBytesFromFrame(frame).Some? ==> p.Some?)
  {
    hide GetUint, Utf8.Valid, Base64.Encode, Base64.Decode;
    if HasHeader(frame) && PayloadEnd(frame) <= |frame| {
      Base64.EncodeDecode(frame[SourceEnd(frame)..PayloadEnd(frame)]);
    }
  }

  lemma SameHeader(frame: Data, n: nat)
    requires HEADER_LEN <= n <= |frame|
    ensures frame[..n][..4] == frame[..4] && frame[..n][4] == frame[4]
    ensures frame[..n][5..7] == frame[5..7] && frame[..n][7..15] == frame[7..15]
    ensures frame[..n][15..23] == frame[15..23] && frame[..n][23..27] == frame[23..27]
    ensures forall i, j :: 0 <= i <= j <= n ==> frame[..n][i..j] == frame[i..j]
  {
  }

  /** The relay's own decoder tolerates trailing bytes and nothing else: it accepts a frame
      exactly when some prefix is a well-formed envelope with a UTF-8 source, and reads
      only that prefix. */
  lemma LenientIsStrictOnAPrefix(lib: Library, frame: Data)
    ensures DecodeFrameJson(lib, frame).Some? <==>
            exists n: nat :: n <= |frame| && StrictDecode(frame[..n]).Some?
                             && Utf8.Valid(StrictDecode(frame[..n]).value.source)
    ensures forall n: nat :: n <= |frame| && StrictDecode(frame[..n]).Some? ==>
            DecodeFrameJson(lib, frame) == DecodeFrameJson(lib, frame[..n])
  {
    hide GetUint, Utf8.Valid, Base64.Encode;
    if DecodeFrameJson(lib, frame).Some? {
      var n := PayloadEnd(frame);
      SameHeader(frame, n);
      assert StrictDecode(frame[..n]).Some? && Utf8.Valid(StrictDecode(frame[..n]).value.source);
    }
    forall n: nat | n <= |frame| && StrictDecode(frame[..n]).Some?
      ensures DecodeFrameJson(lib, frame) == DecodeFrameJson(lib, frame[..n])
      ensures Utf8.Valid(StrictDecode(frame[..n]).value.source) ==> DecodeFrameJson(lib, frame).Some?
    {
      SameHeader(frame, n);
    }
  }

  // ----- Frames as published -----

  function PublishedFields(source: Utf8.Str, sequence: U64, receivedAtMs: U64, frame: RawFrame): Fields {
    Fields(frame.Kind(), source, sequence, receivedAtMs, frame.Payload())
  }

  lemma PayloadOfEncoded(f: Fields)
    requires Fits(f)
    ensures PayloadBytesFromFrame(EncodeFrame(f)) == if f.kind == 1 then Some(f.payload) else None
  {
    hide EncodeFrame, GetUint;
    HeaderOfEncoded(f);
    var e := EncodeFrame(f);
    assert e[SourceEnd(e)..PayloadEnd(e)] == e[HEADER_LEN..][|f.source|..] == f.payload;
  }

  /** A published frame reads as Base64 exactly when the upstream sent it as binary. */
  lemma PublishedProjection(lib: Library, source: Utf8.Str, sequence: U64, receivedAtMs: U64, frame: RawFrame)
    requires |source| < U16_SIZE && |frame.Payload()| < U32_SIZE
    ensures var e := EncodeFrame(PublishedFields(source, sequence, receivedAtMs, frame));
            && DecodeFrameJson(lib, e).Some?
            && (DecodeFrameJson(lib, e).value.encoding == Base64Text <==> frame.Binary?)
            && SourceIdFromFrame(e) == Some(source)
            && PayloadBytesFromFrame(e) == if frame.Text? then Some(frame.Payload()) else None
  {
    hide EncodeFrame, DecodeFrameJson, SourceIdFromFrame, PayloadBytesFromFrame, ReadPayload, Utf8.Valid;
    var f := PublishedFields(source, sequence, receivedAtMs, frame);
    ProjectionRoundTrip(lib, f);
    ParsersAgree(lib, EncodeFrame(f));
    PayloadOfEncoded(f);
  }

  function WithoutMark(s: Data): Data {
    if TextDecoder.Marked(s) then s[3..] else s
  }

  function WithoutMarks(f: Fields): Fields {
    f.(source := WithoutMark(f.source), payload := if f.kind == 1 then WithoutMark(f.payload) else f.payload)
  }

  /** Of a published message the documented decoder drops a leading U+FEFF, in the source as in
      a text payload, and nothing else. */
  lemma PublishedIsShown(source: Utf8.Str, sequence: U64, receivedAtMs: U64, frame: RawFrame)
    requires |source| < U16_SIZE && |frame.Payload()| < U32_SIZE
    ensures var f := PublishedFields(source, sequence, receivedAtMs, frame);
            && DocumentedDecode(EncodeFrame(f)) == Some(WithoutMarks(f))
            && (WithoutMarks(f) == f <==>
                  !TextDecoder.Marked(source) && (frame.Text? ==> !TextDecoder.Marked(frame.text)))
  {
    hide EncodeFrame, StrictDecode, TextDecoder.Decode;
    StrictRoundTrip(PublishedFields(source, sequence, receivedAtMs, frame));
    TextDecoder.TextLosesItsMark(source);
    if frame.Text? {
      TextDecoder.TextLosesItsMark(frame.text);
    }
  }

  /** Such a message: U+FEFF and the letter A, of which only the letter is read. */
  lemma MarkIsLost(source: Utf8.Str, sequence: U64, receivedAtMs: U64)
    requires |source| < U16_SIZE
    ensures Utf8.Valid([0xEF, 0xBB, 0xBF, 0x41])
    ensures var f := PublishedFields(source, sequence, receivedAtMs, Text([0xEF, 0xBB, 0xBF, 0x41]));
            && StrictDecode(EncodeFrame(f)) == Some(f)
            && DocumentedDecode(EncodeFrame(f)).Some?
            && DocumentedDecode(EncodeFrame(f)).value.payload == [0x41]
  {
    hide EncodeFrame, StrictDecode, DocumentedDecode;
    var text: Data := [0xEF, 0xBB, 0xBF, 0x41];
    assert Utf8.CharLen(text) == 3 && text[3..] == [0x41] && Utf8.CharLen([0x41]) == 1;
    var f := PublishedFields(source, sequence, receivedAtMs, Text(text));
    PublishedIsShown(source, sequence, receivedAtMs, Text(text));
    StrictRoundTrip(f);
  }

  // ----- Metadata for the filters -----

  datatype FrameMeta = FrameMeta(payloadType: Option<Data>, contentHash: Option<Data>)

  function AsciiUpper(s: Data): Data {
    seq(|s|, i requires 0 <= i < |s| => if 97 <= s[i] <= 122 then s[i] - 32 else s[i])
  }

  function MetaOf(lib: Library, frame: Data): FrameMeta {
    match PayloadBytesFromFrame(frame)
    case None => FrameMeta(None, None)
    case Some(payload) =>
      match lib.probe(payload)
      case Some(Probe(Some(data))) =>
        FrameMeta(
          if data.payloadTypeName.Some? then Some(AsciiUpper(data.payloadTypeName.value)) else None,
          if data.hash.Some? && data.hash.value != [] then data.hash else None)
      case _ => FrameMeta(None, None)
  }

  /** What the JSON library finds in a message that came as text. */
  function Probed(lib: Library, frame: RawFrame): Option<ProbeData> {
    if frame.Binary? then None
    else match lib.probe(frame.text) case Some(found) => found.data case None => None
  }

  /** The content hash of a message, if it has one that is not empty. */
  function HashOf(lib: Library, frame: RawFrame): Option<Data> {
    var found := Probed(lib, frame);
    if found.Some? && found.value.hash != Some([]) then found.value.hash else None
  }

  /** The name of a message's payload type, as it is written. */
  function TypeNameOf(lib: Library, frame: RawFrame): Option<Data> {
    var found := Probed(lib, frame);
    if found.Some? then found.value.payloadTypeName else None
  }

  /** `raised` is `name` with the letters a to z made capital, and nothing else changed. */
  predicate IsRaised(name: Data, raised: Data) {
    && |raised| == |name|
    && forall i :: 0 <= i < |name| ==>
         raised[i] == if 'a' as int <= name[i] as int <= 'z' as int then name[i] - 32 else name[i]
  }

  /** The metadata of a published message: its content hash, and its type name raised. Both come
      from the text that was published, and a binary message has neither. */
  lemma MetaOfPublished(lib: Library, source: Utf8.Str, sequence: U64, receivedAtMs: U64, frame: RawFrame)
    requires |source| < U16_SIZE && |frame.Payload()| < U32_SIZE
    ensures var meta := MetaOf(lib, EncodeFrame(PublishedFields(source, sequence, receivedAtMs, frame)));
            && meta.contentHash == HashOf(lib, frame)
            && (meta.payloadType.Some? <==> TypeNameOf(lib, frame).Some?)
            && (meta.payloadType.Some? ==> IsRaised(TypeNameOf(lib, frame).value, meta.payloadType.value))
    ensures frame.Binary? ==> HashOf(lib, frame) == TypeNameOf(lib, frame) == None
    ensures frame.Text? ==>
              forall hash, name :: lib.probe(frame.text) == Some(Probe(Some(ProbeData(hash, name)))) ==>
                HashOf(lib, frame) == (if hash == Some([]) then None else hash) && TypeNameOf(lib, frame) == name
    ensures frame.Text? && (lib.probe(frame.text).None? || lib.probe(frame.text).value.data.None?) ==>
              HashOf(lib, frame) == TypeNameOf(lib, frame) == None
  {
    hide EncodeFrame, PayloadBytesFromFrame, Utf8.Valid;
    PayloadOfEncoded(PublishedFields(source, sequence, receivedAtMs, frame));
  }

  function JsonOf(lib: Library, frame: Data): Option<Data> {
    match DecodeFrameJson(lib, frame)
    case Some(p) => Some(lib.toJson(p))
    case None => None
  }

  /** A frame shared by all subscribers. The two caches are filled by whoever asks first. */
  class MultiplexFrame {
    const lib: Library
    const binary: Data
    var json: Option<Option<Data>>
    var meta: Option<FrameMeta>
    ghost var projections: nat  // times the JSON projection was computed
    ghost var probes: nat       // times the payload was parsed for the filters

    ghost predicate Valid()
      reads this
    {
      && (json.Some? ==> json.value == JsonOf(lib, binary))
      && (meta.Some? ==> meta.value == MetaOf(lib, binary))
      && projections == (if json.Some? then 1 else 0)
      && probes == (if meta.Some? then 1 else 0)
    }

    constructor (lib: Library, binary: Data)
      ensures Valid() && this.lib == lib && this.binary == binary
      ensures projections == probes == 0
    {
      this.lib := lib;
      this.binary := binary;
      json := None;
      meta := None;
      projections := 0;
      probes := 0;
    }

    method Json() returns (r: Option<Data>)
      requires Valid()
      modifies this`json, this`projections
      ensures Valid()
      ensures r == JsonOf(lib, binary)
      ensures projections == 1 && (old(json).Some? ==> json == old(json))
    {
      if json.None? {
        json := Some(JsonOf(lib, binary));
        projections := projections + 1;
      }
      r := json.value;
    }

    method Meta() returns (m: FrameMeta)
      requires Valid()
      modifies this`meta, this`probes
      ensures Valid()
      ensures m == MetaOf(lib, binary)
      ensures probes == 1 && (old(meta).Some? ==> meta == old(meta))
    {
      if meta.None? {
        meta := Some(MetaOf(lib, binary));
        probes := probes + 1;
      }
      m := meta.value;
    }
  }
}
