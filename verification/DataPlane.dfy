/** The operation envelope, its admission rules, and the length-prefixed frame (src/web_data_plane.rs). */
module DataPlane {
  import opened Prelude

  const MAX_OPERATION_BYTES: nat := 16 * 1024
  const MAX_FRAME_BYTES: nat := 64 * 1024
  const MAX_OPERATION_DEADLINE_MS: nat := 30_000

  datatype WebApiMode = DirectReadOnlyDatabase | StatelessHttp | StatefulMtlsTcp | JetStreamAsync

  datatype DataOperation = Read | Write

  /** `payload` is the JSON text of the operation's free-form argument. */
  datatype OperationEnvelope = OperationEnvelope(
    version: byte,
    operationId: string,
    subject: string,
    resource: string,
    operation: DataOperation,
    payload: Bytes,
    deadlineUnixMs: nat,
    dedupeKey: Option<string>)

  datatype DataPlaneError =
    | UnsupportedVersion
    | InvalidIdentifier
    | PayloadTooLarge
    | DeadlineExpired
    | DeadlineTooFar
    | DirectDatabaseWrite
    | MissingDedupeKey
    | InvalidFrame
    | Serialization

  // ---------------------------------------------------------------- identifiers

  /** Bytes of a character's UTF-8 form: Rust measures strings in bytes, PostgreSQL in characters. */
  function Utf8Width(c: char): (n: nat)
    ensures 1 <= n <= 4
  {
    if c as int < 0x80 then 1 else if c as int < 0x800 then 2 else if c as int < 0x10000 then 3 else 4
  }

  function Utf8Length(s: string): nat {
    if s == "" then 0 else Utf8Width(s[0]) + Utf8Length(s[1..])
  }

  predicate IsControl(c: char) {
    c as int < 0x20 || 0x7F <= c as int <= 0x9F
  }

  /** The Unicode White_Space property, which `str::trim` strips. */
  predicate IsWhitespace(c: char) {
    var n := c as int;
    9 <= n <= 13 || n in {0x20, 0x85, 0xA0, 0x1680, 0x2028, 0x2029, 0x202F, 0x205F, 0x3000} || 0x2000 <= n <= 0x200A
  }

  predicate ValidIdentifier(value: string, maximum: nat) {
    && value != ""
    && Utf8Length(value) <= maximum
    && (forall k :: 0 <= k < |value| ==> !IsControl(value[k]))
    && !IsWhitespace(value[0])
    && !IsWhitespace(value[|value| - 1])
  }

  /** `str::trim`. */
  function Trimmed(s: string): string
    decreases |s|
  {
    if s == "" then ""
    else if IsWhitespace(s[0]) then Trimmed(s[1..])
    else if IsWhitespace(s[|s| - 1]) then Trimmed(s[..|s| - 1])
    else s
  }

  lemma {:induction false} TrimShortens(s: string)
    ensures |Trimmed(s)| <= |s|
    ensures s != "" && (IsWhitespace(s[0]) || IsWhitespace(s[|s| - 1])) ==> |Trimmed(s)| < |s|
    decreases |s|
  {
    if s != "" {
      TrimShortens(s[1..]);
      TrimShortens(s[..|s| - 1]);
    }
  }

  /** A valid identifier is a text of bounded size without control characters that trimming leaves alone. */
  lemma ValidIdentifiersAreTrimmed(value: string, maximum: nat)
    ensures ValidIdentifier(value, maximum) <==>
              && value != "" && Utf8Length(value) <= maximum && Trimmed(value) == value
              && forall k :: 0 <= k < |value| ==> !(value[k] as int < 0x20 || 0x7F <= value[k] as int <= 0x9F)
  {
    TrimShortens(value);
  }

  /** An identifier that passes the byte bound passes the schema's character bound. */
  lemma {:induction false} CharactersFitInBytes(s: string)
    ensures |s| <= Utf8Length(s)
  {
    if s != "" {
      CharactersFitInBytes(s[1..]);
    }
  }

  // ---------------------------------------------------------------- admission

  function ValidateFor(e: OperationEnvelope, mode: WebApiMode, encoded: Bytes, now: nat): Result<(), DataPlaneError> {
    if e.version != 1 then Failure(UnsupportedVersion)
    else if !ValidIdentifier(e.operationId, 128) then Failure(InvalidIdentifier)
    else if !ValidIdentifier(e.subject, 256) then Failure(InvalidIdentifier)
    else if !ValidIdentifier(e.resource, 96) then Failure(InvalidIdentifier)
    else if |encoded| > MAX_OPERATION_BYTES then Failure(PayloadTooLarge)
    else if e.deadlineUnixMs <= now then Failure(DeadlineExpired)
    else if e.deadlineUnixMs - now > MAX_OPERATION_DEADLINE_MS then Failure(DeadlineTooFar)
    else if mode == DirectReadOnlyDatabase && e.operation != Read then Failure(DirectDatabaseWrite)
    else if mode == JetStreamAsync then
      if e.dedupeKey.None? then Failure(MissingDedupeKey)
      else if !ValidIdentifier(e.dedupeKey.value, 128) then Failure(InvalidIdentifier)
      else Success(())
    else Success(())
  }

  /** Once admitted, an envelope stays admissible exactly at the instants of one window that ends at its deadline. */
  lemma AdmissionIsOneWindow(e: OperationEnvelope, mode: WebApiMode, encoded: Bytes, t: nat, u: nat)
    requires ValidateFor(e, mode, encoded, t).Success?
    ensures ValidateFor(e, mode, encoded, u).Success? <==> u < e.deadlineUnixMs <= u + MAX_OPERATION_DEADLINE_MS
    ensures ValidateFor(e, mode, encoded, u).Success? ==>
            u < t + MAX_OPERATION_DEADLINE_MS && t < u + MAX_OPERATION_DEADLINE_MS
    ensures 1 <= |e.operationId| <= 128 && 1 <= |e.subject| <= 256
  {
    CharactersFitInBytes(e.operationId);
    CharactersFitInBytes(e.subject);
  }

  /** Everything an admitted envelope has passed, for each way of transport. */
  lemma ValidatedExactly(e: OperationEnvelope, mode: WebApiMode, encoded: Bytes, now: nat)
    ensures ValidateFor(e, mode, encoded, now).Success? <==>
              && e.version == 1
              && ValidIdentifier(e.operationId, 128) && ValidIdentifier(e.subject, 256)
              && ValidIdentifier(e.resource, 96)
              && |encoded| <= 16384
              && now < e.deadlineUnixMs <= now + 30000
              && (mode == DirectReadOnlyDatabase ==> e.operation == Read)
              && (mode == JetStreamAsync ==> e.dedupeKey.Some? && ValidIdentifier(e.dedupeKey.value, 128))
  {
  }

  /** A refusal names the first check that fails: everything before it has passed. */
  lemma RefusalNamesTheFirstFailure(e: OperationEnvelope, mode: WebApiMode, encoded: Bytes, now: nat)
    requires ValidateFor(e, mode, encoded, now).Failure?
    ensures var named := ValidIdentifier(e.operationId, 128) && ValidIdentifier(e.subject, 256)
                         && ValidIdentifier(e.resource, 96);
            var sized := e.version == 1 && named && |encoded| <= 16384;
            var timely := sized && now < e.deadlineUnixMs <= now + 30000;
            match ValidateFor(e, mode, encoded, now).error
            case UnsupportedVersion => e.version != 1
            case InvalidIdentifier =>
              (e.version == 1 && !named)
              || (timely && mode == JetStreamAsync && e.dedupeKey.Some? && !ValidIdentifier(e.dedupeKey.value, 128))
            case PayloadTooLarge => e.version == 1 && named && |encoded| > 16384
            case DeadlineExpired => sized && e.deadlineUnixMs <= now
            case DeadlineTooFar => sized && e.deadlineUnixMs > now + 30000
            case DirectDatabaseWrite => timely && mode == DirectReadOnlyDatabase && e.operation == Write
            case MissingDedupeKey => timely && mode == JetStreamAsync && e.dedupeKey == None
            case _ => false
  {
  }

  // ---------------------------------------------------------------- frames

  /** Most significant byte first. */
  function BigEndian32(n: nat): (b: Bytes)
    requires n < 0x1_0000_0000
    ensures |b| == 4 && n == b[0] as int * 0x100_0000 + b[1] as int * 0x1_0000 + b[2] as int * 0x100 + b[3] as int
  {
    [n / 0x100 / 0x100 / 0x100, n / 0x100 / 0x100 % 0x100, n / 0x100 % 0x100, n % 0x100]
  }

  function FromBigEndian32(b: Bytes): (n: nat)
    requires |b| == 4
    ensures n == b[0] as int * 0x100_0000 + b[1] as int * 0x1_0000 + b[2] as int * 0x100 + b[3] as int
    ensures n < 0x1_0000_0000
  {
    ((b[0] as int * 0x100 + b[1]) * 0x100 + b[2]) * 0x100 + b[3]
  }

  lemma BigEndianRoundTrip(n: nat)
    requires n < 0x1_0000_0000
    ensures FromBigEndian32(BigEndian32(n)) == n
  {
  }

  lemma NoCarry(high: nat, low: byte)
    ensures (high * 0x100 + low) / 0x100 == high && (high * 0x100 + low) % 0x100 == low
  {
  }

  lemma BigEndianOnto(b: Bytes)
    requires |b| == 4
    ensures BigEndian32(FromBigEndian32(b)) == b
  {
    var two := b[0] as int * 0x100 + b[1];
    var three := two * 0x100 + b[2];
    NoCarry(b[0], b[1]);
    NoCarry(two, b[2]);
    NoCarry(three, b[3]);
  }

  predicate Fits(payload: Bytes, maximum: nat) {
    |payload| <= maximum <= MAX_FRAME_BYTES
  }

  function Frame(payload: Bytes): Bytes
    requires |payload| <= MAX_FRAME_BYTES
  {
    BigEndian32(|payload|) + payload
  }

  /** JSON printing, which may fail, and strict parsing of envelopes. */
  datatype Json = Json(text: OperationEnvelope -> Option<Bytes>, parse: Bytes -> Option<OperationEnvelope>)

  function EncodedFrame(j: Json, envelope: OperationEnvelope, maximum: nat): Result<Bytes, DataPlaneError> {
    var payload := j.text(envelope);
    if payload.None? then Failure(Serialization)
    else if Fits(payload.value, maximum) then Success(Frame(payload.value))
    else Failure(PayloadTooLarge)
  }

  /** `encode_frame`: serialization, a bound check, then two appends to one buffer. */
  method EncodeFrame(j: Json, envelope: OperationEnvelope, maximum: nat) returns (r: Result<Bytes, DataPlaneError>)
    ensures r == EncodedFrame(j, envelope, maximum)
    ensures j.text(envelope) == None ==> r == Failure(Serialization)
    ensures j.text(envelope).Some? ==>
              var payload := j.text(envelope).value;
              if |payload| <= maximum <= 65536 then
                && r.Success? && |r.value| == 4 + |payload| && r.value[4..] == payload
                && |payload| == r.value[0] as int * 0x100_0000 + r.value[1] as int * 0x1_0000
                                + r.value[2] as int * 0x100 + r.value[3] as int
              else r == Failure(PayloadTooLarge)
  {
    var printed := j.text(envelope);
    if printed.None? {
      return Failure(Serialization);
    }
    var payload := printed.value;
    if |payload| > maximum || maximum > MAX_FRAME_BYTES {
      return Failure(PayloadTooLarge);
    }
    var frame: Bytes := [];
    frame := frame + BigEndian32(|payload|);
    frame := frame + payload;
    assert frame == Frame(payload);
    return Success(frame);
  }

  /** The payload of exactly one frame, nothing missing and nothing after it. */
  function Unframe(frame: Bytes, maximum: nat): Result<Bytes, DataPlaneError> {
    if |frame| < 4 then Failure(InvalidFrame)
    else
      var length := FromBigEndian32(frame[..4]);
      if length > maximum || maximum > MAX_FRAME_BYTES || |frame| != length + 4 then Failure(InvalidFrame)
      else Success(frame[4..])
  }

  /** `decode_frame`: one frame whose payload parses. */
  function DecodeFrame(j: Json, frame: Bytes, maximum: nat): Result<OperationEnvelope, DataPlaneError> {
    var payload := Unframe(frame, maximum);
    if payload.Failure? || j.parse(payload.value).None? then Failure(InvalidFrame)
    else Success(j.parse(payload.value).value)
  }

  /** Framing is a bijection between payloads up to the maximum and the byte strings the decoder accepts. */
  lemma FramingIsABijection(frame: Bytes, payload: Bytes, maximum: nat)
    ensures Unframe(frame, maximum) == Success(payload) <==> Fits(payload, maximum) && frame == Frame(payload)
  {
    if Fits(payload, maximum) && frame == Frame(payload) {
      BigEndianRoundTrip(|payload|);
      assert frame[..4] == BigEndian32(|payload|) && frame[4..] == payload;
    }
    if Unframe(frame, maximum) == Success(payload) {
      BigEndianOnto(frame[..4]);
      assert frame == frame[..4] + frame[4..];
    }
  }

  /** The decoder answers with an envelope exactly for the frames of its JSON texts within the maximum. */
  lemma DecodesExactlyFrames(j: Json, frame: Bytes, maximum: nat, envelope: OperationEnvelope)
    ensures DecodeFrame(j, frame, maximum) == Success(envelope) <==>
            exists payload :: Fits(payload, maximum) && j.parse(payload) == Some(envelope) && frame == Frame(payload)
    ensures DecodeFrame(j, frame, maximum).Failure? ==> DecodeFrame(j, frame, maximum) == Failure(InvalidFrame)
  {
    if DecodeFrame(j, frame, maximum) == Success(envelope) {
      FramingIsABijection(frame, Unframe(frame, maximum).value, maximum);
    }
    if payload :| Fits(payload, maximum) && j.parse(payload) == Some(envelope) && frame == Frame(payload) {
      FramingIsABijection(frame, payload, maximum);
    }
  }

  /** A frame that was encoded decodes to its envelope exactly when the JSON text parses back. */
  lemma DecodeUndoesEncode(j: Json, envelope: OperationEnvelope, maximum: nat)
    requires EncodedFrame(j, envelope, maximum).Success?
    ensures DecodeFrame(j, EncodedFrame(j, envelope, maximum).value, maximum) == Success(envelope)
            <==> j.parse(j.text(envelope).value) == Some(envelope)
  {
    var payload := j.text(envelope).value;
    FramingIsABijection(Frame(payload), payload, maximum);
  }

  /** The first frame of a stream is determined by the stream. */
  lemma FirstFrameIsUnique(p: Bytes, q: Bytes, a: Bytes, b: Bytes)
    requires |p| <= MAX_FRAME_BYTES && |q| <= MAX_FRAME_BYTES
    requires Frame(p) + a == Frame(q) + b
    ensures p == q && a == b
  {
    var s, t := Frame(p) + a, Frame(q) + b;
    assert s[..4] == BigEndian32(|p|) && t[..4] == BigEndian32(|q|);
    BigEndianRoundTrip(|p|);
    BigEndianRoundTrip(|q|);
    assert s[4..4 + |p|] == p && t[4..4 + |q|] == q;
    assert s[4 + |p|..] == a && t[4 + |q|..] == b;
  }

  /** No frame is a proper prefix of another. */
  lemma NoFrameIsAProperPrefix(p: Bytes, q: Bytes)
    requires |p| <= MAX_FRAME_BYTES && |q| <= MAX_FRAME_BYTES
    requires Frame(p) <= Frame(q)
    ensures p == q
  {
    var rest := Frame(q)[|Frame(p)|..];
    assert Frame(p) + rest == Frame(q) == Frame(q) + [];
    FirstFrameIsUnique(p, q, rest, []);
  }

  function Stream(payloads: seq<Bytes>): Bytes
    requires forall p :: p in payloads ==> |p| <= MAX_FRAME_BYTES
  {
    if payloads == [] then [] else Frame(payloads[0]) + Stream(payloads[1..])
  }

  /** The connection's length-delimited codec: cut frames off the front until the bytes are used up. */
  function Split(stream: Bytes, maximum: nat): (r: Option<seq<Bytes>>)
    ensures r.Some? ==> forall p :: p in r.value ==> |p| <= maximum
    decreases |stream|
  {
    if stream == [] then Some([])
    else if |stream| < 4 then None
    else
      var length := FromBigEndian32(stream[..4]);
      if length > maximum || |stream| < 4 + length then None
      else
        var rest := Split(stream[4 + length..], maximum);
        if rest.None? then None else Some([stream[4..4 + length]] + rest.value)
  }

  /** The codec cuts a frame off the front of whatever follows it. */
  lemma FrameIsCutOff(p: Bytes, rest: Bytes, maximum: nat)
    requires |p| <= maximum <= MAX_FRAME_BYTES && Split(rest, maximum).Some?
    ensures Split(Frame(p) + rest, maximum) == Some([p] + Split(rest, maximum).value)
  {
    var s := Frame(p) + rest;
    BigEndianRoundTrip(|p|);
    assert s[..4] == BigEndian32(|p|) && s[4..4 + |p|] == p && s[4 + |p|..] == rest;
  }

  /** A concatenation of frames splits back into exactly the payloads that were sent, in order. */
  lemma {:induction false} SplitUndoesStream(payloads: seq<Bytes>, maximum: nat)
    requires maximum <= MAX_FRAME_BYTES
    requires forall p :: p in payloads ==> |p| <= maximum
    ensures Split(Stream(payloads), maximum) == Some(payloads)
  {
    if payloads != [] {
      SplitUndoesStream(payloads[1..], maximum);
      FrameIsCutOff(payloads[0], Stream(payloads[1..]), maximum);
      assert payloads == [payloads[0]] + payloads[1..];
    }
  }

  /** A complete first frame is a frame in front of the rest. */
  lemma FirstFrame(stream: Bytes)
    requires |stream| >= 4 && |stream| >= 4 + FromBigEndian32(stream[..4])
    requires FromBigEndian32(stream[..4]) <= MAX_FRAME_BYTES
    ensures var length := FromBigEndian32(stream[..4]);
            stream == Frame(stream[4..4 + length]) + stream[4 + length..]
  {
    var length := FromBigEndian32(stream[..4]);
    BigEndianOnto(stream[..4]);
    assert stream == stream[..4] + stream[4..4 + length] + stream[4 + length..];
  }

  /** The codec accepts nothing but concatenations of frames. */
  lemma {:induction false} StreamUndoesSplit(stream: Bytes, maximum: nat)
    requires maximum <= MAX_FRAME_BYTES
    ensures Split(stream, maximum).Some? ==> Stream(Split(stream, maximum).value) == stream
    decreases |stream|
  {
    if Split(stream, maximum).Some? && stream != [] {
      var length := FromBigEndian32(stream[..4]);
      var rest := stream[4 + length..];
      StreamUndoesSplit(rest, maximum);
      FirstFrame(stream);
      var payloads := Split(rest, maximum).value;
      assert ([stream[4..4 + length]] + payloads)[1..] == payloads;
    }
  }
}
