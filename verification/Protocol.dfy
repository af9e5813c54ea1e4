/** The wire format: big-endian codecs and the frame builders. */
module Protocol {
  import opened Common

  const HEADER_SIZE: nat := 4
  const TYPE_SIZE: nat := 1
  const REQUEST_ID_SIZE: nat := 8
  const UINT32_RANGE: nat := 0x1_0000_0000

  datatype MessageType = Heartbeat | UserData | HealthCheck | HealthCheckResponse | Request | Response {
    function Code(): bv8 {
      match this
      case Heartbeat => 0
      case UserData => 1
      case HealthCheck => 2
      case HealthCheckResponse => 3
      case Request => 4
      case Response => 5
    }
  }

  /** The message type a byte stands for, if any. */
  function TypeOf(code: bv8): Option<MessageType> {
    if code == 0 then Some(Heartbeat)
    else if code == 1 then Some(UserData)
    else if code == 2 then Some(HealthCheck)
    else if code == 3 then Some(HealthCheckResponse)
    else if code == 4 then Some(Request)
    else if code == 5 then Some(Response)
    else None
  }

  lemma TypeOfCode(kind: MessageType, code: bv8)
    ensures TypeOf(kind.Code()) == Some(kind)
    ensures TypeOf(code) == Some(kind) <==> code == kind.Code()
  {
  }

  // ---------------------------------------------------------------- codecs

  function BytesOfUint32(value: bv32): Bytes {
    [((value >> 24) & 0xff) as bv8, ((value >> 16) & 0xff) as bv8,
     ((value >> 8) & 0xff) as bv8, (value & 0xff) as bv8]
  }

  function BytesOfUint64(value: bv64): Bytes {
    [((value >> 56) & 0xff) as bv8, ((value >> 48) & 0xff) as bv8,
     ((value >> 40) & 0xff) as bv8, ((value >> 32) & 0xff) as bv8,
     ((value >> 24) & 0xff) as bv8, ((value >> 16) & 0xff) as bv8,
     ((value >> 8) & 0xff) as bv8, (value & 0xff) as bv8]
  }

  function DecodeUint32(input: Bytes): bv32
    requires |input| == HEADER_SIZE
  {
    ((input[0] as bv32) << 24) | ((input[1] as bv32) << 16) | ((input[2] as bv32) << 8) | (input[3] as bv32)
  }

  function DecodeUint64(input: Bytes, offset: nat): bv64
    requires offset + REQUEST_ID_SIZE <= |input|
  {
    ((input[offset] as bv64) << 56) | ((input[offset + 1] as bv64) << 48) |
    ((input[offset + 2] as bv64) << 40) | ((input[offset + 3] as bv64) << 32) |
    ((input[offset + 4] as bv64) << 24) | ((input[offset + 5] as bv64) << 16) |
    ((input[offset + 6] as bv64) << 8) | (input[offset + 7] as bv64)
  }

  /** Reference meaning of the codecs: the number a big-endian byte string denotes. */
  function BigEndianValue(bytes: Bytes): nat {
    if bytes == [] then 0
    else BigEndianValue(bytes[..|bytes| - 1]) * 256 + bytes[|bytes| - 1] as nat
  }

  lemma ShiftInByte(high: bv32, low: bv8)
    requires high < 0x100_0000
    ensures ((high << 8) | (low as bv32)) as nat == (high as nat) * 256 + low as nat
  {
  }

  lemma HornerForm(a: bv8, b: bv8, c: bv8, d: bv8)
    ensures var ab := ((a as bv32) << 8) | (b as bv32);
            var abc := (ab << 8) | (c as bv32);
            ab < 0x1_0000 && abc < 0x100_0000 && DecodeUint32([a, b, c, d]) == (abc << 8) | (d as bv32)
  {
  }

  lemma BigEndianOfFour(input: Bytes)
    requires |input| == HEADER_SIZE
    ensures BigEndianValue(input)
         == ((input[0] as nat * 256 + input[1] as nat) * 256 + input[2] as nat) * 256 + input[3] as nat
  {
    assert input[..3][..2] == input[..2] && input[..2][..1] == input[..1] && input[..1][..0] == [];
    assert BigEndianValue(input[..1]) == input[0] as nat;
    assert BigEndianValue(input[..2]) == input[0] as nat * 256 + input[1] as nat;
    assert BigEndianValue(input[..3]) == BigEndianValue(input[..2]) * 256 + input[2] as nat;
  }

  lemma ShiftOrOfFour(a: bv8, b: bv8, c: bv8, d: bv8)
    ensures DecodeUint32([a, b, c, d]) as nat == ((a as nat * 256 + b as nat) * 256 + c as nat) * 256 + d as nat
  {
    HornerForm(a, b, c, d);
    ShiftInThree(a, b, c, d);
  }

  lemma ShiftInThree(a: bv8, b: bv8, c: bv8, d: bv8)
    ensures var ab := ((a as bv32) << 8) | (b as bv32);
            var abc := (ab << 8) | (c as bv32);
            ((abc << 8) | (d as bv32)) as nat == ((a as nat * 256 + b as nat) * 256 + c as nat) * 256 + d as nat
  {
    var ab := ((a as bv32) << 8) | (b as bv32);
    var abc := (ab << 8) | (c as bv32);
    HornerForm(a, b, c, d);
    ShiftInByte(a as bv32, b);
    ShiftInByte(ab, c);
    ShiftInByte(abc, d);
    WidenByte(a);
  }

  lemma WidenByte(a: bv8)
    ensures (a as bv32) as nat == a as nat
  {
  }

  /** The shift/or decoder computes the big-endian value of its four bytes. */
  lemma DecodeUint32IsBigEndian(input: Bytes)
    requires |input| == HEADER_SIZE
    ensures DecodeUint32(input) as nat == BigEndianValue(input)
  {
    BigEndianOfFour(input);
    ShiftOrOfFour(input[0], input[1], input[2], input[3]);
    assert input == [input[0], input[1], input[2], input[3]];
  }

  lemma Uint32RoundTrip(value: bv32, input: Bytes)
    requires |input| == HEADER_SIZE
    ensures DecodeUint32(BytesOfUint32(value)) == value
    ensures BytesOfUint32(DecodeUint32(input)) == input
  {
  }

  lemma Uint64RoundTrip(value: bv64, prefix: Bytes, suffix: Bytes)
    ensures DecodeUint64(prefix + BytesOfUint64(value) + suffix, |prefix|) == value
  {
    var bytes := prefix + BytesOfUint64(value) + suffix;
    assert forall k {:trigger bytes[|prefix| + k]} :: 0 <= k < 8 ==> bytes[|prefix| + k] == BytesOfUint64(value)[k];
    assert bytes[|prefix| + 0] == BytesOfUint64(value)[0];
  }

  lemma ShiftInByteWide(high: bv64, low: bv8)
    requires high < 0x100_0000_0000_0000
    ensures ((high << 8) | (low as bv64)) as nat == high as nat * 256 + low as nat
  {
  }

  lemma HornerFormWide(a: bv8, b: bv8, c: bv8, d: bv8, e: bv8, f: bv8, g: bv8, h: bv8)
    ensures var ab := ((a as bv64) << 8) | (b as bv64);
            var abc := (ab << 8) | (c as bv64);
            var abcd := (abc << 8) | (d as bv64);
            var abcde := (abcd << 8) | (e as bv64);
            var abcdef := (abcde << 8) | (f as bv64);
            var abcdefg := (abcdef << 8) | (g as bv64);
            && ab < 0x1_0000 && abc < 0x100_0000 && abcd < 0x1_0000_0000 && abcde < 0x100_0000_0000
            && abcdef < 0x1_0000_0000_0000 && abcdefg < 0x100_0000_0000_0000
            && DecodeUint64([a, b, c, d, e, f, g, h], 0) == (abcdefg << 8) | (h as bv64)
  {
  }

  function HornerValue(a: bv8, b: bv8, c: bv8, d: bv8, e: bv8, f: bv8, g: bv8, h: bv8): nat {
    ((((((a as nat * 256 + b as nat) * 256 + c as nat) * 256 + d as nat) * 256 + e as nat) * 256 + f as nat) * 256
     + g as nat) * 256 + h as nat
  }

  function NatOf(value: bv64): nat {
    value as nat
  }

  lemma ShiftOrOfEight(a: bv8, b: bv8, c: bv8, d: bv8, e: bv8, f: bv8, g: bv8, h: bv8)
    ensures NatOf(DecodeUint64([a, b, c, d, e, f, g, h], 0)) == HornerValue(a, b, c, d, e, f, g, h)
  {
    HornerFormWide(a, b, c, d, e, f, g, h);
    ShiftInSeven(a, b, c, d, e, f, g, h);
  }

  lemma ShiftInSeven(a: bv8, b: bv8, c: bv8, d: bv8, e: bv8, f: bv8, g: bv8, h: bv8)
    ensures var ab := ((a as bv64) << 8) | (b as bv64);
            var abc := (ab << 8) | (c as bv64);
            var abcd := (abc << 8) | (d as bv64);
            var abcde := (abcd << 8) | (e as bv64);
            var abcdef := (abcde << 8) | (f as bv64);
            var abcdefg := (abcdef << 8) | (g as bv64);
            ((abcdefg << 8) | (h as bv64)) as nat == HornerValue(a, b, c, d, e, f, g, h)
  {
    var ab := ((a as bv64) << 8) | (b as bv64);
    var abc := (ab << 8) | (c as bv64);
    var abcd := (abc << 8) | (d as bv64);
    var abcde := (abcd << 8) | (e as bv64);
    var abcdef := (abcde << 8) | (f as bv64);
    var abcdefg := (abcdef << 8) | (g as bv64);
    HornerFormWide(a, b, c, d, e, f, g, h);
    ByteWidens(a);
    ShiftInByteWide(a as bv64, b);
    ShiftInByteWide(ab, c);
    ShiftInByteWide(abc, d);
    ShiftInByteWide(abcd, e);
    ShiftInByteWide(abcde, f);
    ShiftInByteWide(abcdef, g);
    ShiftInByteWide(abcdefg, h);
  }

  lemma ByteWidens(a: bv8)
    ensures (a as bv64) as nat == a as nat && a as bv64 < 0x100
  {
  }

  lemma {:induction false} BigEndianOfEight(input: Bytes)
    requires |input| == REQUEST_ID_SIZE
    ensures BigEndianValue(input)
         == HornerValue(input[0], input[1], input[2], input[3], input[4], input[5], input[6], input[7])
  {
    BigEndianOfFour(input[..4]);
    assert input[..7][..6] == input[..6] && input[..6][..5] == input[..5] && input[..5][..4] == input[..4];
    assert BigEndianValue(input[..5]) == BigEndianValue(input[..4]) * 256 + input[4] as nat;
    assert BigEndianValue(input[..6]) == BigEndianValue(input[..5]) * 256 + input[5] as nat;
    assert BigEndianValue(input[..7]) == BigEndianValue(input[..6]) * 256 + input[6] as nat;
  }

  /** The shift/or decoder computes the big-endian value of its eight bytes. */
  lemma DecodeUint64IsBigEndian(input: Bytes)
    requires |input| == REQUEST_ID_SIZE
    ensures NatOf(DecodeUint64(input, 0)) == BigEndianValue(input)
  {
    hide DecodeUint64, HornerValue, BigEndianValue, NatOf;
    BigEndianOfEight(input);
    ShiftOrOfEight(input[0], input[1], input[2], input[3], input[4], input[5], input[6], input[7]);
    assert input == [input[0], input[1], input[2], input[3], input[4], input[5], input[6], input[7]];
  }

  /** The bytes of a request id denote it. */
  lemma BytesOfUint64Value(value: bv64)
    ensures BigEndianValue(BytesOfUint64(value)) == NatOf(value)
  {
    hide BytesOfUint64, DecodeUint64, NatOf;
    Uint64RoundTrip(value, [], []);
    assert [] + BytesOfUint64(value) + [] == BytesOfUint64(value);
    EightBytes(value);
    DecodeUint64IsBigEndian(BytesOfUint64(value));
  }

  lemma EightBytes(value: bv64)
    ensures |BytesOfUint64(value)| == REQUEST_ID_SIZE
  {
  }

  /** Casting to uint32_t keeps the value modulo 2^32. */
  function Truncate32(value: nat): bv32 {
    (value % UINT32_RANGE) as bv32
  }

  function Digits(value: nat): Bytes {
    [((value / 0x100_0000) % 256) as bv8, ((value / 0x1_0000) % 256) as bv8,
     ((value / 0x100) % 256) as bv8, (value % 256) as bv8]
  }

  lemma DigitsValue(value: nat)
    requires value < UINT32_RANGE
    ensures BigEndianValue(Digits(value)) == value
  {
    BigEndianOfFour(Digits(value));
    ByteOfNat((value / 0x100_0000) % 256);
    ByteOfNat((value / 0x1_0000) % 256);
    ByteOfNat((value / 0x100) % 256);
    ByteOfNat(value % 256);
    DigitSum(value);
  }

  lemma {:induction false} ByteOfNat(digit: nat)
    requires digit < 256
    ensures (digit as bv8) as nat == digit
  {
    if digit == 0 {
      assert (0 as bv8) as nat == 0;
    } else {
      ByteOfNat(digit - 1);
      NextByte((digit - 1) as bv8);
    }
  }

  lemma NextByte(b: bv8)
    requires b as nat < 255
    ensures (b + 1) as nat == b as nat + 1 && (b as nat + 1) as bv8 == b + 1
  {
    assert b < 255;
    SuccessorByte(b);
    assert ((b + 1) as nat) as bv8 == b + 1;
  }

  lemma SuccessorByte(b: bv8)
    requires b < 255
    ensures (b + 1) as nat == b as nat + 1
  {
  }

  lemma DigitSum(value: nat)
    requires value < UINT32_RANGE
    ensures (((value / 0x100_0000) % 256 * 256 + (value / 0x1_0000) % 256) * 256 + (value / 0x100) % 256) * 256
            + value % 256
         == value
  {
  }

  lemma BitsOfNat(bits: bv32)
    ensures (bits as nat) as bv32 == bits
  {
  }

  lemma Truncate32Value(value: nat)
    ensures Truncate32(value) as nat == value % UINT32_RANGE
  {
    var low := value % UINT32_RANGE;
    DigitsValue(low);
    DecodeUint32IsBigEndian(Digits(low));
    BitsOfNat(DecodeUint32(Digits(low)));
  }

  method EncodeUint32(output: array<bv8>, value: bv32)
    requires output.Length == HEADER_SIZE
    modifies output
    ensures output[..] == BytesOfUint32(value)
    ensures BigEndianValue(output[..]) == value as nat
  {
    output[0] := ((value >> 24) & 0xff) as bv8;
    output[1] := ((value >> 16) & 0xff) as bv8;
    output[2] := ((value >> 8) & 0xff) as bv8;
    output[3] := (value & 0xff) as bv8;
    assert output[..] == BytesOfUint32(value);
    Uint32RoundTrip(value, output[..]);
    DecodeUint32IsBigEndian(output[..]);
  }

  method EncodeUint64(output: array<bv8>, value: bv64)
    requires output.Length == REQUEST_ID_SIZE
    modifies output
    ensures output[..] == BytesOfUint64(value)
    ensures BigEndianValue(output[..]) == NatOf(value)
  {
    output[0] := ((value >> 56) & 0xff) as bv8;
    output[1] := ((value >> 48) & 0xff) as bv8;
    output[2] := ((value >> 40) & 0xff) as bv8;
    output[3] := ((value >> 32) & 0xff) as bv8;
    output[4] := ((value >> 24) & 0xff) as bv8;
    output[5] := ((value >> 16) & 0xff) as bv8;
    output[6] := ((value >> 8) & 0xff) as bv8;
    output[7] := (value & 0xff) as bv8;
    assert output[..] == BytesOfUint64(value);
    BytesOfUint64Value(value);
  }

  // ---------------------------------------------------------------- frames

  function Header(bodySize: nat): Bytes {
    BytesOfUint32(Truncate32(bodySize))
  }

  function Frame(kind: MessageType, body: Bytes): Bytes {
    Header(TYPE_SIZE + |body|) + [kind.Code()] + body
  }

  function UserDataFrame(data: Bytes): Bytes {
    Frame(UserData, data)
  }

  function RequestFrame(id: bv64, data: Bytes): Bytes {
    Frame(Request, BytesOfUint64(id) + data)
  }

  function ResponseFrame(id: bv64, data: Bytes): Bytes {
    Frame(Response, BytesOfUint64(id) + data)
  }

  method MakeFrame(kind: MessageType, data: Bytes) returns (frame: Bytes)
    ensures frame == Frame(kind, data)
  {
    var bodySize := TYPE_SIZE + |data|;
    var header := new bv8[HEADER_SIZE];
    EncodeUint32(header, Truncate32(bodySize));
    frame := [];
    frame := frame + header[..];
    frame := frame + [kind.Code()];
    if |data| > 0 {
      frame := frame + data;
    }
  }

  method MakeRequestResponseFrame(kind: MessageType, id: bv64, data: Bytes) returns (frame: Bytes)
    requires kind == Request || kind == Response
    ensures frame == Frame(kind, BytesOfUint64(id) + data)
  {
    var bodySize := TYPE_SIZE + REQUEST_ID_SIZE + |data|;
    var header := new bv8[HEADER_SIZE];
    EncodeUint32(header, Truncate32(bodySize));
    var encodedRequestId := new bv8[REQUEST_ID_SIZE];
    EncodeUint64(encodedRequestId, id);
    frame := [];
    frame := frame + header[..];
    frame := frame + [kind.Code()];
    frame := frame + encodedRequestId[..];
    frame := frame + data;
    assert |BytesOfUint64(id) + data| == REQUEST_ID_SIZE + |data|;
  }

  /** What the header of a frame says about the frame: exact below 2^32, wrapped above. */
  lemma HeaderOfFrame(kind: MessageType, body: Bytes)
    ensures var frame := Frame(kind, body);
            && |frame| == HEADER_SIZE + TYPE_SIZE + |body|
            && DecodeUint32(frame[..HEADER_SIZE]) as nat == (TYPE_SIZE + |body|) % UINT32_RANGE
            && frame[HEADER_SIZE] == kind.Code()
            && frame[HEADER_SIZE + TYPE_SIZE..] == body
  {
    var frame := Frame(kind, body);
    var header := Header(TYPE_SIZE + |body|);
    assert frame[..HEADER_SIZE] == header;
    Uint32RoundTrip(Truncate32(TYPE_SIZE + |body|), header);
    Truncate32Value(TYPE_SIZE + |body|);
  }
}
