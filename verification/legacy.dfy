/**
 * The older single-layer API over WinSCard: the same connection record, used
 * directly, with BOOL results instead of error codes. Its connect and initialize
 * behave as the adapter's; disconnect and release forget the connection and the
 * context whatever the SCard calls return, and a transmit leaves in
 * *responseLength whatever SCardTransmit wrote there, successful or not.
 */
module SmartCardLegacy {
  import opened CardDomain
  import opened Apdu
  import opened ReaderNames
  import opened SCard
  import opened WinScard

  // ---------------------------------------------------------------------------
  // The legacy steps, on the value of the context struct
  // ---------------------------------------------------------------------------

  /** DisconnectFromCard: a connected context is marked disconnected; the SCardDisconnect status is not looked at. */
  function LegacyDisconnect(s: Session): (t: Session)
    ensures !t.connected
    ensures t.hContext == s.hContext && t.hCard == s.hCard && t.activeProtocol == s.activeProtocol
    ensures t.readerName == s.readerName
  {
    if s.connected then s.(connected := false) else s
  }

  /**
   * ReleaseSmartCard: disconnect as above, then a nonzero context handle is
   * released and cleared; the SCardReleaseContext status is not looked at.
   */
  function LegacyRelease(s: Session): (t: Session)
    ensures !t.connected && t.hContext == 0
    ensures t.hCard == s.hCard && t.activeProtocol == s.activeProtocol && t.readerName == s.readerName
  {
    var afterDisconnect := LegacyDisconnect(s);
    if afterDisconnect.hContext != 0 then afterDisconnect.(hContext := 0) else afterDisconnect
  }

  /**
   * The adapter keeps the connection when SCardDisconnect fails and reports
   * CONNECT_FAILED; the legacy call agrees with it exactly when there was
   * nothing to disconnect or the disconnect succeeded.
   */
  lemma DisconnectAgreesWithAdapter(s: Session, status: int)
    ensures LegacyDisconnect(s) == DisconnectStep(s, status).session <==> !s.connected || status == SCardSuccess
  {
    if s.connected && status != SCardSuccess {
      assert DisconnectStep(s, status).session.connected != LegacyDisconnect(s).connected;
    }
  }

  /**
   * The legacy release leaves the same context as the adapter's exactly when
   * every SCard call it makes succeeds.
   */
  lemma ReleaseAgreesWithAdapter(s: Session, disconnectStatus: int, releaseStatus: int)
    ensures LegacyRelease(s) == ReleaseStep(s, disconnectStatus, releaseStatus).session
        <==> (!s.connected || disconnectStatus == SCardSuccess) && (s.hContext == 0 || releaseStatus == SCardSuccess)
  {
    var t := ReleaseStep(s, disconnectStatus, releaseStatus);
    if s.connected && disconnectStatus != SCardSuccess {
      assert t.session.connected != LegacyRelease(s).connected;
    } else if s.hContext != 0 && releaseStatus != SCardSuccess {
      assert t.session.hContext != LegacyRelease(s).hContext;
    } else {
      assert t.session == LegacyRelease(s);
    }
  }

  /** Releasing twice leaves what releasing once does. */
  lemma ReleaseIdempotent(s: Session)
    ensures LegacyRelease(LegacyRelease(s)) == LegacyRelease(s)
  {
  }

  /**
   * What ReadFromCard returns, the bytes SCardTransmit writes into the response
   * buffer, and the value left in *responseLength.
   */
  datatype Outcome = Outcome(ok: bool, received: seq<byte>, length: nat)

  /**
   * ReadFromCard: FALSE without calling SCardTransmit when not connected or the
   * protocol is neither T=0 nor T=1; otherwise the caller's length pointer is
   * handed to SCardTransmit, so it holds the reply's length on failure too.
   */
  function ReadStep(s: Session, command: seq<byte>, capacity: nat, exchange: Exchange): (t: Outcome)
    ensures t.ok <==>
      s.connected && SupportedProtocol(s.activeProtocol) && exchange(s.hCard, command, capacity).status == SCardSuccess
    ensures !(s.connected && SupportedProtocol(s.activeProtocol)) ==> t == Outcome(false, [], capacity)
    ensures s.connected && SupportedProtocol(s.activeProtocol) ==>
      t.received == exchange(s.hCard, command, capacity).received && t.length == exchange(s.hCard, command, capacity).length
  {
    if !s.connected || !SupportedProtocol(s.activeProtocol) then Outcome(false, [], capacity)
    else
      var reply := exchange(s.hCard, command, capacity);
      Outcome(reply.status == SCardSuccess, reply.received, reply.length)
  }

  /**
   * The legacy read succeeds exactly when the adapter's transmit does, and the
   * same bytes reach the response buffer; the length they report differs only
   * after a failing SCardTransmit that changed it.
   */
  lemma ReadAgreesWithTransmit(s: Session, command: seq<byte>, capacity: nat, exchange: Exchange)
    ensures ReadStep(s, command, capacity, exchange).ok <==> TransmitStep(s, command, capacity, exchange).code == Success
    ensures ReadStep(s, command, capacity, exchange).received == TransmitStep(s, command, capacity, exchange).received
    ensures ReadStep(s, command, capacity, exchange).length != TransmitStep(s, command, capacity, exchange).length
        <==> s.connected && SupportedProtocol(s.activeProtocol)
             && exchange(s.hCard, command, capacity).status != SCardSuccess
             && exchange(s.hCard, command, capacity).length != capacity
  {
  }

  // ---------------------------------------------------------------------------
  // The context struct and the legacy functions
  // ---------------------------------------------------------------------------

  /** SmartCardContext; isConnected is a BOOL only ever set to TRUE or FALSE. */
  class SmartCardContext {
    var hContext: nat
    var hCard: nat
    var dwActiveProtocol: nat
    var readerName: array<char>
    var isConnected: bool

    ghost predicate Valid()
      reads this
    {
      readerName.Length == ReaderNameSize
    }

    ghost function State(): Session
      reads this, readerName
    {
      Session(hContext, hCard, dwActiveProtocol, readerName[..], isConnected)
    }

    /** Storage for a context before InitializeSmartCard: its field values are arbitrary. */
    constructor ()
      ensures Valid()
    {
      readerName := new char[ReaderNameSize];
    }
  }

  /** InitializeSmartCard: the adapter's initialize, TRUE exactly when SCardEstablishContext succeeds. */
  method InitializeSmartCard(ctx: SmartCardContext, establish: EstablishReply) returns (ok: bool)
    requires ctx.Valid()
    modifies ctx, ctx.readerName
    ensures ctx.Valid() && ctx.readerName == old(ctx.readerName)
    ensures ok <==> establish.status == SCardSuccess
    ensures ctx.State() == InitializeStep(establish).session
  {
    // Zero the whole struct: both handles, the protocol and every name character.
    ctx.hContext, ctx.hCard, ctx.dwActiveProtocol := 0, 0, 0;
    var field := ctx.readerName;
    forall i | 0 <= i < ReaderNameSize {
      field[i] := NUL;
    }
    ctx.isConnected := false;
    ctx.hContext := establish.hContext;
    ok := establish.status == SCardSuccess;
  }

  /** The reply of SCardListReaders: its status, the text it writes and the length it leaves behind. */
  datatype ListingReply = ListingReply(status: int, text: seq<char>, length: nat)

  /** SCardListReaders as a function of the context handle and the buffer length it is offered. */
  type Lister = (nat, nat) -> ListingReply

  /**
   * ListReaders: one SCardListReaders call straight into the caller's buffer
   * (None for a NULL buffer, which asks for the size only). TRUE only on
   * success: no readers available is a failure here, unlike in the adapter.
   */
  method ListReaders(ctx: SmartCardContext, readers: array?<char>, readersLength: nat, lister: Lister)
    returns (ok: bool, newLength: nat)
    modifies readers
    ensures var reply := lister(ctx.hContext, readersLength);
      && (ok <==> reply.status == SCardSuccess)
      && newLength == reply.length
      && (readers != null ==> readers[..] == Overwrite(old(readers[..]), reply.text, readersLength))
  {
    var reply := lister(ctx.hContext, readersLength);
    if readers != null {
      var k := Min(Min(|reply.text|, readersLength), readers.Length);
      forall i | 0 <= i < k {
        readers[i] := reply.text[i];
      }
    }
    ok, newLength := reply.status == SCardSuccess, reply.length;
  }

  /** ConnectToCard: the adapter's connect step, TRUE exactly when it reports success. */
  method ConnectToCard(ctx: SmartCardContext, readerName: string, connector: Connector) returns (ok: bool)
    requires ctx.Valid()
    modifies ctx, ctx.readerName
    ensures ctx.Valid() && ctx.readerName == old(ctx.readerName)
    ensures var t := ConnectStep(old(ctx.State()), readerName, connector);
      (ok <==> t.code == Success) && ctx.State() == t.session
  {
    var name := CString(readerName);
    var m := Min(|name|, ReaderNameSize - 1);
    var field := ctx.readerName;
    ghost var before := field[..];
    // Copy at most 255 characters of the name, padding with NULs; the last character is left alone.
    forall i | 0 <= i < ReaderNameSize - 1 {
      field[i] := if i < m then name[i] else NUL;
    }
    assert field[..] == StrNCopy(before, readerName, ReaderNameSize - 1);
    var reply := connector(ctx.hContext, CString(field[..]));
    ctx.hCard := reply.hCard;
    ctx.dwActiveProtocol := reply.activeProtocol;
    if reply.status != SCardSuccess {
      return false;
    }
    ctx.isConnected := true;
    ok := true;
  }

  /** DisconnectFromCard. */
  method DisconnectFromCard(ctx: SmartCardContext)
    requires ctx.Valid()
    modifies ctx
    ensures ctx.Valid() && ctx.readerName == old(ctx.readerName)
    ensures ctx.State() == LegacyDisconnect(old(ctx.State()))
  {
    if ctx.isConnected {
      // SCardDisconnect(hCard, SCARD_LEAVE_CARD); its status is dropped.
      ctx.isConnected := false;
    }
  }

  /** ReleaseSmartCard. */
  method ReleaseSmartCard(ctx: SmartCardContext)
    requires ctx.Valid()
    modifies ctx
    ensures ctx.Valid() && ctx.readerName == old(ctx.readerName)
    ensures ctx.State() == LegacyRelease(old(ctx.State()))
  {
    DisconnectFromCard(ctx);
    if ctx.hContext != 0 {
      // SCardReleaseContext(hContext); its status is dropped.
      ctx.hContext := 0;
    }
  }

  /**
   * ReadFromCard: `responseLength` is the value behind the in/out length pointer,
   * which SCardTransmit receives as it is.
   */
  method ReadFromCard(ctx: SmartCardContext, command: array<byte>, commandLength: nat,
                      response: array<byte>, responseLength: nat, exchange: Exchange)
    returns (ok: bool, newLength: nat)
    requires ctx.Valid()
    requires commandLength <= command.Length && responseLength <= response.Length
    modifies response
    ensures var t := ReadStep(ctx.State(), old(command[..commandLength]), responseLength, exchange);
      && ok == t.ok && newLength == t.length
      && response[..] == Overwrite(old(response[..]), t.received, responseLength)
  {
    newLength := responseLength;
    if !ctx.isConnected {
      return false, newLength;
    }
    if ctx.dwActiveProtocol != ProtocolT0 && ctx.dwActiveProtocol != ProtocolT1 {
      return false, newLength;
    }
    var reply := exchange(ctx.hCard, command[..commandLength], responseLength);
    var k := Min(|reply.received|, responseLength);
    forall i | 0 <= i < k {
      response[i] := reply.received[i];
    }
    ok, newLength := reply.status == SCardSuccess, reply.length;
  }

  /** WriteToCard: exactly ReadFromCard on the caller's bytes. */
  method WriteToCard(ctx: SmartCardContext, data: array<byte>, dataLength: nat,
                     response: array<byte>, responseLength: nat, exchange: Exchange)
    returns (ok: bool, newLength: nat)
    requires ctx.Valid()
    requires dataLength <= data.Length && responseLength <= response.Length
    modifies response
    ensures var t := ReadStep(ctx.State(), old(data[..dataLength]), responseLength, exchange);
      && ok == t.ok && newLength == t.length
      && response[..] == Overwrite(old(response[..]), t.received, responseLength)
  {
    ok, newLength := ReadFromCard(ctx, data, dataLength, response, responseLength, exchange);
  }

  /**
   * RewriteCardData: FALSE when the command storage cannot be had, before any
   * other check; otherwise UPDATE BINARY of the data at `address` (the same
   * bytes the service's rewrite sends) goes through ReadFromCard.
   */
  method RewriteCardData(ctx: SmartCardContext, address: byte, data: array<byte>, dataLength: nat,
                         response: array<byte>, responseLength: nat, exchange: Exchange, allocOk: bool)
    returns (ok: bool, newLength: nat)
    requires ctx.Valid()
    requires dataLength <= data.Length && responseLength <= response.Length
    modifies response
    ensures !allocOk ==> !ok && newLength == responseLength && response[..] == old(response[..])
    ensures allocOk ==>
      var t := ReadStep(ctx.State(), UpdateBinaryCommand(address, old(data[..dataLength])), responseLength, exchange);
      && ok == t.ok && newLength == t.length
      && response[..] == Overwrite(old(response[..]), t.received, responseLength)
  {
    if !allocOk {
      return false, responseLength;
    }
    var command := FillDataCommand(InsUpdateBinary, address, data, dataLength);
    DataCommandShape(InsUpdateBinary, address, data[..dataLength]);
    assert command[..HeaderLength + dataLength] == UpdateBinaryCommand(address, old(data[..dataLength]));
    ok, newLength := ReadFromCard(ctx, command, HeaderLength + dataLength, response, responseLength, exchange);
    // The command storage is released here; the model drops it.
  }
}
