/**
 * Command APDU framing (section 5.1 of ISO/IEC 7816-4): a five-byte header
 * CLA INS P1 P2 P3 followed by the command data. P3 is Lc when data follows and
 * Le when a response of that length is asked for.
 */
module Apdu {
  import opened Wrappers
  import opened CardDomain

  /** The PC/SC class byte for commands the reader itself interprets. */
  const Cla: byte := 0xFF
  const InsReadBinary: byte := 0xB0
  const InsWriteBinary: byte := 0xD0
  const InsUpdateBinary: byte := 0xD6
  const HeaderLength: nat := 5
  /** The response buffer the service allocates: 256 data bytes and the two status bytes. */
  const MaxResponseLength: nat := 258

  datatype CommandHeader = CommandHeader(cla: byte, ins: byte, p1: byte, p2: byte, p3: byte)

  function Frame(h: CommandHeader, body: seq<byte>): seq<byte>
  {
    [h.cla, h.ins, h.p1, h.p2, h.p3] + body
  }

  /** Splits a frame into its header and the bytes after it; None when it is shorter than a header. */
  function Parse(frame: seq<byte>): (r: Option<(CommandHeader, seq<byte>)>)
    ensures r.Some? <==> |frame| >= HeaderLength
    ensures r.Some? ==> Frame(r.value.0, r.value.1) == frame
  {
    if |frame| < HeaderLength then None
    else Some((CommandHeader(frame[0], frame[1], frame[2], frame[3], frame[4]), frame[HeaderLength..]))
  }

  /** Parsing undoes framing. */
  lemma ParseFrame(h: CommandHeader, body: seq<byte>)
    ensures Parse(Frame(h, body)) == Some((h, body))
  {
    assert Frame(h, body)[HeaderLength..] == body;
  }

  /** READ BINARY at offset `address`; the length travels as one byte (`(uint8_t)length`). */
  function ReadBinaryCommand(address: byte, length: nat): seq<byte>
  {
    Frame(CommandHeader(Cla, InsReadBinary, 0x00, address, LowByte(length)), [])
  }

  /** A command carrying `data` after a header whose P3 is the data length as one byte. */
  function DataCommand(ins: byte, address: byte, data: seq<byte>): seq<byte>
  {
    Frame(CommandHeader(Cla, ins, 0x00, address, LowByte(|data|)), data)
  }

  /** WRITE BINARY of `data` at offset `address`. */
  function WriteBinaryCommand(address: byte, data: seq<byte>): seq<byte>
  {
    DataCommand(InsWriteBinary, address, data)
  }

  /** UPDATE BINARY of `data` at offset `address`. */
  function UpdateBinaryCommand(address: byte, data: seq<byte>): seq<byte>
  {
    DataCommand(InsUpdateBinary, address, data)
  }

  /** The read command is a bare header asking for `length` bytes at `address`. */
  lemma ReadBinaryShape(address: byte, length: nat)
    ensures Parse(ReadBinaryCommand(address, length))
         == Some((CommandHeader(0xFF, 0xB0, 0x00, address, LowByte(length)), []))
    ensures |ReadBinaryCommand(address, length)| == HeaderLength
  {
    ParseFrame(CommandHeader(Cla, InsReadBinary, 0x00, address, LowByte(length)), []);
  }

  /** A data command is 5 + n bytes: the header, then the data unchanged. */
  lemma DataCommandShape(ins: byte, address: byte, data: seq<byte>)
    ensures Parse(DataCommand(ins, address, data))
         == Some((CommandHeader(0xFF, ins, 0x00, address, LowByte(|data|)), data))
    ensures |DataCommand(ins, address, data)| == HeaderLength + |data|
  {
    ParseFrame(CommandHeader(Cla, ins, 0x00, address, LowByte(|data|)), data);
  }

  /** Lc agrees with the number of data bytes that follow exactly when the data is shorter than 256 bytes. */
  predicate LcMatchesBody(frame: seq<byte>)
  {
    |frame| >= HeaderLength && frame[4] as int == |frame| - HeaderLength
  }

  lemma DataCommandLcMatches(ins: byte, address: byte, data: seq<byte>)
    ensures LcMatchesBody(DataCommand(ins, address, data)) <==> |data| < 256
  {
    DataCommandShape(ins, address, data);
    var c := DataCommand(ins, address, data);
    assert c[4] == LowByte(|data|);
  }

  /** Rewriting frames the same bytes as writing except the instruction byte. */
  lemma UpdateDiffersFromWriteOnlyInInstruction(address: byte, data: seq<byte>)
    ensures UpdateBinaryCommand(address, data) == WriteBinaryCommand(address, data)[1 := InsUpdateBinary]
    ensures WriteBinaryCommand(address, data)[1] == 0xD0 && UpdateBinaryCommand(address, data)[1] == 0xD6
  {
  }

  /**
   * The length byte of a short Le (section 5.1 of ISO/IEC 7816-4): 00 asks for 256
   * bytes, any other value for itself.
   */
  function ExpectedLength(le: byte): nat
  {
    if le == 0 then 256 else le as nat
  }

  /** The read command asks the card for exactly `length` bytes iff 1 <= length <= 256. */
  lemma ReadBinaryAsksForLength(address: byte, length: nat)
    ensures ExpectedLength(ReadBinaryCommand(address, length)[4]) == length <==> 1 <= length <= 256
  {
  }

  /**
   * The reader's own read and rewrite examples: 16 bytes from offset 0, and eight
   * bytes 11 22 .. 88 rewritten at offset 0x10.
   */
  lemma ExampleFrames()
    ensures ReadBinaryCommand(0x00, 16) == [0xFF, 0xB0, 0x00, 0x00, 0x10]
    ensures UpdateBinaryCommand(0x10, [0x11, 0x22, 0x33, 0x44, 0x55, 0x66, 0x77, 0x88])
         == [0xFF, 0xD6, 0x00, 0x10, 0x08, 0x11, 0x22, 0x33, 0x44, 0x55, 0x66, 0x77, 0x88]
    ensures WriteBinaryCommand(0x10, [0x11, 0x22, 0x33, 0x44, 0x55, 0x66, 0x77, 0x88])
         == [0xFF, 0xD0, 0x00, 0x10, 0x08, 0x11, 0x22, 0x33, 0x44, 0x55, 0x66, 0x77, 0x88]
  {
  }

  /**
   * Fills freshly allocated storage of 5 + n bytes with a data command: the header
   * byte by byte, then the first n bytes of `data`.
   */
  method FillDataCommand(ins: byte, address: byte, data: array<byte>, n: nat) returns (command: array<byte>)
    requires n <= data.Length
    ensures command[..] == DataCommand(ins, address, data[..n])
    ensures fresh(command)
  {
    command := new byte[HeaderLength + n];
    command[0] := Cla;
    command[1] := ins;
    command[2] := 0x00;
    command[3] := address;
    command[4] := LowByte(n);
    forall i | 0 <= i < n {
      command[HeaderLength + i] := data[i];
    }
    assert command[..] == [Cla, ins, 0x00, address, LowByte(n)] + data[..n];
  }
}
