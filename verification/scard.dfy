/**
 * What both transport layers share about the PC/SC resource manager (WinSCard):
 * the status codes and protocol values they test, the replies of the SCard calls
 * they make (the calls themselves are outside the model and enter as values),
 * and the connection record both context structs hold.
 */
module SCard {
  import opened CardDomain
  import opened ReaderNames

  const SCardSuccess: int := 0
  const SCardNoReadersAvailable: int := 0x8010002E
  const ProtocolT0: nat := 1
  const ProtocolT1: nat := 2
  /** The size of the reader-name field of both context structs. */
  const ReaderNameSize: nat := 256

  /** SCardEstablishContext: its status and the handle it writes. */
  datatype EstablishReply = EstablishReply(status: int, hContext: nat)

  /** SCardConnect: its status, the card handle and the protocol it writes. */
  datatype ConnectReply = ConnectReply(status: int, hCard: nat, activeProtocol: nat)

  /** SCardConnect as a function of the context handle and the reader name it is given. */
  type Connector = (nat, string) -> ConnectReply

  /**
   * SCardTransmit: its status, the bytes it writes at the start of the receive
   * buffer, and the value it leaves in the receive-length argument.
   */
  datatype ExchangeReply = ExchangeReply(status: int, received: seq<byte>, length: nat)

  /** SCardTransmit as a function of the card handle, the command bytes and the receive capacity. */
  type Exchange = (nat, seq<byte>, nat) -> ExchangeReply

  /** The fields of a context struct as a value; `connected` is the isConnected flag. */
  datatype Session = Session(hContext: nat, hCard: nat, activeProtocol: nat, readerName: seq<char>, connected: bool)
  {
    predicate WellFormed()
    {
      |readerName| == ReaderNameSize
    }

    /** The stored reader name is NUL-terminated inside its field. */
    predicate NameTerminated()
    {
      WellFormed() && readerName[ReaderNameSize - 1] == NUL
    }
  }

  /** The context after the whole struct is zeroed. */
  function Zeroed(): (s: Session)
    ensures s.NameTerminated() && !s.connected && s.hContext == 0 && s.hCard == 0
  {
    Session(0, 0, 0, seq(ReaderNameSize, _ => NUL), false)
  }

  predicate SupportedProtocol(protocol: nat)
  {
    protocol == ProtocolT0 || protocol == ProtocolT1
  }

  /**
   * The C library's bounded string copy with limit n: the first n characters of
   * dest become the C string of src, padded with NULs, and the rest of dest is
   * untouched. When src has n or more characters no terminator is written.
   */
  function StrNCopy(dest: seq<char>, src: string, n: nat): (r: seq<char>)
    requires n <= |dest|
    ensures |r| == |dest|
    ensures forall i | 0 <= i < |r| ::
      r[i] == (if i >= n then dest[i] else if i < |CString(src)| then src[i] else NUL)
  {
    var name := CString(src);
    var m := Min(|name|, n);
    name[..m] + seq(n - m, _ => NUL) + dest[n..]
  }

  /** The name a connect leaves in the context field: the caller's name cut to 255 characters. */
  function Truncated(name: string): string
  {
    CString(name)[..Min(|CString(name)|, ReaderNameSize - 1)]
  }

  /**
   * The name a connect stores: copying at most 255 characters into a field whose
   * last character is NUL leaves that NUL in place, and the field then holds the
   * caller's name cut to 255 characters.
   */
  lemma StoredNameIsTruncatedName(field: seq<char>, name: string)
    requires |field| == ReaderNameSize && field[ReaderNameSize - 1] == NUL
    ensures var stored := StrNCopy(field, name, ReaderNameSize - 1);
      && stored[ReaderNameSize - 1] == NUL
      && CString(stored) == Truncated(name)
  {
    var stored := StrNCopy(field, name, ReaderNameSize - 1);
    var m := Min(|CString(name)|, ReaderNameSize - 1);
    NulFromScans(name, 0);
    assert forall i | 0 <= i < m :: stored[i] == CString(name)[i] == name[i] != NUL;
    NulFromAt(stored, 0, m);
  }
}
