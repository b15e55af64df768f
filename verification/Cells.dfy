/** The wire protocol: commands, messages and the fixed-size 514-byte cell. */
module Cells {
  import opened Common

  type CircuitId = uint32
  type StreamId = uint16
  type Tag = s: seq<byte> | |s| == DIGEST_SIZE witness [0, 0, 0, 0]

  const CELL_SIZE: nat := 514
  const HEADER_SIZE: nat := 11
  const PAYLOAD_LEN_SIZE: nat := 2
  const DIGEST_SIZE: nat := 4
  const MAX_PAYLOAD_SIZE: nat := CELL_SIZE - HEADER_SIZE - PAYLOAD_LEN_SIZE - DIGEST_SIZE
  const DATA_START: nat := HEADER_SIZE + PAYLOAD_LEN_SIZE + DIGEST_SIZE

  datatype Command =
    Padding | Create | Created | Extend | Extended | Destroy | Begin | Connected | Data | End

  function ToU8(c: Command): byte {
    match c
    case Padding => 0x00
    case Create => 0x01
    case Created => 0x02
    case Extend => 0x03
    case Extended => 0x04
    case Destroy => 0x05
    case Begin => 0x10
    case Connected => 0x11
    case Data => 0x12
    case End => 0x13
  }

  function FromU8(b: byte): (r: Option<Command>)
    ensures forall c :: ToU8(c) == b <==> r == Some(c)
  {
    match b
    case 0x00 => Some(Padding)
    case 0x01 => Some(Create)
    case 0x02 => Some(Created)
    case 0x03 => Some(Extend)
    case 0x04 => Some(Extended)
    case 0x05 => Some(Destroy)
    case 0x10 => Some(Begin)
    case 0x11 => Some(Connected)
    case 0x12 => Some(Data)
    case 0x13 => Some(End)
    case _ => None
  }

  datatype Message = Message(
    circuit: CircuitId, stream: StreamId, command: Command, data: seq<byte>, digest: Tag)
  {
    predicate Fits() { |data| <= MAX_PAYLOAD_SIZE }
  }

  const NO_DIGEST: Tag := [0, 0, 0, 0]

  /** A message of the circuit itself: stream 0, digest zero. */
  function CircuitMessage(circuit: CircuitId, command: Command, data: seq<byte>): Message {
    Message(circuit, 0, command, data, NO_DIGEST)
  }

  datatype CellError =
    | TooShort(got: nat)
    | BadLength(got: nat)
    | UnknownCommand(code: byte)
    | PayloadLenTooLarge(got: nat)

  /** The random bytes drawn for one cell; only the unused tail of them reaches the wire. */
  type Noise = s: seq<byte> | |s| == MAX_PAYLOAD_SIZE witness seq(497, _ => 0)

  function Header(m: Message): (h: seq<byte>)
    ensures |h| == DATA_START
  {
    Be32(CELL_SIZE - 4) + Be32(m.circuit) + Be16(m.stream) + [ToU8(m.command)]
    + Be16(Min(|m.data|, MAX_PAYLOAD_SIZE)) + m.digest
  }

  /** What `to_bytes` puts on the wire: the payload is cut to 497 bytes, the rest is noise. */
  function Encode(m: Message, noise: Noise): (cell: seq<byte>)
    ensures |cell| == CELL_SIZE
  {
    var n := Min(|m.data|, MAX_PAYLOAD_SIZE);
    Header(m) + m.data[..n] + noise[n..]
  }

  function Decode(bytes: seq<byte>): Result<Message, CellError> {
    if |bytes| < CELL_SIZE then Err(TooShort(|bytes|)) else
    var length := FromBe32(bytes[0..4]);
    if length != CELL_SIZE - 4 then Err(BadLength(length)) else
    var circuit := FromBe32(bytes[4..8]);
    var stream := FromBe16(bytes[8..10]);
    var command := FromU8(bytes[10]);
    if command.None? then Err(UnknownCommand(bytes[10])) else
    var n := FromBe16(bytes[11..13]);
    if n > MAX_PAYLOAD_SIZE then Err(PayloadLenTooLarge(n)) else
    Ok(Message(circuit, stream, command.value, bytes[DATA_START..DATA_START + n], bytes[13..17]))
  }

  lemma {:induction false} HeaderLayout(m: Message)
    ensures var h := Header(m);
            && h[0..4] == Be32(CELL_SIZE - 4) && h[4..8] == Be32(m.circuit)
            && h[8..10] == Be16(m.stream) && h[10] == ToU8(m.command)
            && h[11..13] == Be16(Min(|m.data|, MAX_PAYLOAD_SIZE)) && h[13..17] == m.digest
  {
    var n := Min(|m.data|, MAX_PAYLOAD_SIZE);
    var front := Be32(CELL_SIZE - 4) + Be32(m.circuit) + Be16(m.stream) + [ToU8(m.command)];
    assert front[0..4] == Be32(CELL_SIZE - 4) && front[4..8] == Be32(m.circuit) && front[8..10] == Be16(m.stream);
    var h := Header(m);
    assert h == front + Be16(n) + m.digest;
    assert h[..11] == front && h[11..13] == Be16(n) && h[13..] == m.digest && h[13..17] == h[13..];
    assert h[0..4] == front[0..4] && h[4..8] == front[4..8] && h[8..10] == front[8..10];
  }

  /** The slot of every field in an encoded cell. */
  lemma {:induction false} EncodeLayout(m: Message, noise: Noise)
    ensures var n := Min(|m.data|, MAX_PAYLOAD_SIZE);
            var cell := Encode(m, noise);
            && cell[0..4] == Be32(CELL_SIZE - 4) && cell[4..8] == Be32(m.circuit)
            && cell[8..10] == Be16(m.stream) && cell[10] == ToU8(m.command)
            && cell[11..13] == Be16(n) && cell[13..17] == m.digest
            && cell[17..17 + n] == m.data[..n] && cell[17 + n..] == noise[n..]
  {
    HeaderLayout(m);
    var h, cell, n := Header(m), Encode(m, noise), Min(|m.data|, MAX_PAYLOAD_SIZE);
    assert cell[..17] == h;
    assert cell[0..4] == h[0..4] && cell[4..8] == h[4..8] && cell[8..10] == h[8..10];
    assert cell[11..13] == h[11..13] && cell[13..17] == h[13..17];
    assert cell[17..17 + n] == m.data[..n];
    assert cell[17 + n..] == noise[n..];
  }

  /** Decoding undoes encoding whatever the noise, up to the cut at 497 bytes. */
  lemma {:induction false} DecodeEncode(m: Message, noise: Noise, tail: seq<byte>)
    ensures Decode(Encode(m, noise) + tail) == Ok(m.(data := m.data[..Min(|m.data|, MAX_PAYLOAD_SIZE)]))
    ensures m.Fits() ==> Decode(Encode(m, noise) + tail) == Ok(m)
  {
    EncodeLayout(m, noise);
    var n := Min(|m.data|, MAX_PAYLOAD_SIZE);
    var cell := Encode(m, noise);
    var bytes := cell + tail;
    assert bytes[0..4] == cell[0..4] && bytes[4..8] == cell[4..8] && bytes[8..10] == cell[8..10];
    assert bytes[10] == cell[10] && bytes[11..13] == cell[11..13] && bytes[13..17] == cell[13..17];
    assert bytes[17..17 + n] == cell[17..17 + n];
    assert m.Fits() ==> m.data[..n] == m.data;
  }

  /** A cell falls into its eight fields. */
  lemma {:induction false} Fields(b: seq<byte>, n: nat)
    requires |b| >= CELL_SIZE && n <= MAX_PAYLOAD_SIZE
    ensures b[..CELL_SIZE] == b[0..4] + b[4..8] + b[8..10] + [b[10]] + b[11..13] + b[13..17]
                              + b[DATA_START..DATA_START + n] + b[DATA_START + n..CELL_SIZE]
  {
  }

  /** Every accepted cell is the encoding of what was read, with its own tail as the noise. */
  lemma {:induction false} EncodeDecode(bytes: seq<byte>)
    requires Decode(bytes).Ok?
    ensures Decode(bytes).value.Fits()
    ensures Encode(Decode(bytes).value, bytes[DATA_START..CELL_SIZE]) == bytes[..CELL_SIZE]
  {
    var m := Decode(bytes).value;
    Be32Inverse(bytes[0..4]);
    Be32Inverse(bytes[4..8]);
    Be16Inverse(bytes[8..10]);
    Be16Inverse(bytes[11..13]);
    assert ToU8(m.command) == bytes[10];
    Fields(bytes, |m.data|);
    assert m.data[..|m.data|] == m.data;
    assert bytes[DATA_START..CELL_SIZE][|m.data|..] == bytes[DATA_START + |m.data|..CELL_SIZE];
  }

  /** A byte string decodes exactly when it starts with the encoding of a message that fits. */
  lemma {:induction false} DecodableIff(bytes: seq<byte>)
    ensures Decode(bytes).Ok? <==>
            exists m: Message, noise: Noise :: m.Fits() && Encode(m, noise) <= bytes
  {
    if Decode(bytes).Ok? {
      EncodeDecode(bytes);
      assert Encode(Decode(bytes).value, bytes[DATA_START..CELL_SIZE]) <= bytes;
    }
    if m: Message, noise: Noise :| m.Fits() && Encode(m, noise) <= bytes {
      DecodeEncode(m, noise, bytes[CELL_SIZE..]);
      assert bytes == Encode(m, noise) + bytes[CELL_SIZE..];
    }
  }

  /** `copy_from_slice` into the part of the buffer that starts at `at`. */
  method CopyInto(buf: array<byte>, at: nat, src: seq<byte>)
    requires at + |src| <= buf.Length
    modifies buf
    ensures buf[..at + |src|] == old(buf[..at]) + src
  {
    forall i | at <= i < at + |src| {
      buf[i] := src[i - at];
    }
  }

  method WriteHeader(cell: array<byte>, m: Message)
    requires cell.Length == CELL_SIZE
    modifies cell
    ensures cell[..DATA_START] == Header(m)
  {
    CopyInto(cell, 0, Be32(CELL_SIZE - 4));
    CopyInto(cell, 4, Be32(m.circuit));
    CopyInto(cell, 8, Be16(m.stream));
    CopyInto(cell, 10, [ToU8(m.command)]);
    CopyInto(cell, 11, Be16(Min(|m.data|, MAX_PAYLOAD_SIZE)));
    CopyInto(cell, 13, m.digest);
  }

  /** Fill a fresh 514-byte buffer field by field. */
  method ToBytes(m: Message, noise: Noise) returns (cell: array<byte>)
    ensures fresh(cell) && cell[..] == Encode(m, noise)
  {
    cell := new byte[CELL_SIZE](_ => 0);
    WriteHeader(cell, m);
    var n := Min(|m.data|, MAX_PAYLOAD_SIZE);
    CopyInto(cell, DATA_START, m.data[..n]);
    if n < MAX_PAYLOAD_SIZE {
      CopyInto(cell, DATA_START + n, noise[n..]);
    } else {
      assert noise[n..] == [];
    }
    assert cell[..] == cell[..CELL_SIZE];
  }

  /** The bytes of a stream of cells, each with its own noise. */
  function EncodeAll(ms: seq<Message>, noise: seq<Noise>): seq<byte>
    requires |noise| == |ms|
  {
    if ms == [] then [] else Encode(ms[0], noise[0]) + EncodeAll(ms[1..], noise[1..])
  }

  /** Repeated `from_stream` until it returns `None`: fewer than 514 bytes before the end of the stream. */
  function ReadAll(bytes: seq<byte>): Result<seq<Message>, CellError>
    decreases |bytes|
  {
    if |bytes| < CELL_SIZE then Ok([]) else
    match Decode(bytes[..CELL_SIZE])
    case Err(e) => Err(e)
    case Ok(m) =>
      match ReadAll(bytes[CELL_SIZE..])
      case Err(e) => Err(e)
      case Ok(ms) => Ok([m] + ms)
  }

  lemma {:induction false} ReadAllSkips(m: Message, noise: Noise, rest: seq<byte>)
    requires m.Fits()
    ensures ReadAll(Encode(m, noise) + rest)
            == match ReadAll(rest) case Err(e) => Err(e) case Ok(ms) => Ok([m] + ms)
  {
    var bytes := Encode(m, noise) + rest;
    assert bytes[..CELL_SIZE] == Encode(m, noise) + [];
    assert bytes[CELL_SIZE..] == rest;
    DecodeEncode(m, noise, []);
  }

  /** What was written as cells is read back as the same messages; a torn last cell reads as the end. */
  lemma {:induction false} ReadAllEncodeAll(ms: seq<Message>, noise: seq<Noise>, tail: seq<byte>)
    requires |noise| == |ms| && |tail| < CELL_SIZE
    requires forall m :: m in ms ==> m.Fits()
    ensures ReadAll(EncodeAll(ms, noise) + tail) == Ok(ms)
  {
    if ms == [] {
      assert EncodeAll(ms, noise) + tail == tail;
    } else {
      var rest := EncodeAll(ms[1..], noise[1..]) + tail;
      assert EncodeAll(ms, noise) + tail == Encode(ms[0], noise[0]) + rest;
      ReadAllSkips(ms[0], noise[0], rest);
      ReadAllEncodeAll(ms[1..], noise[1..], tail);
      assert ms == [ms[0]] + ms[1..];
    }
  }
}
