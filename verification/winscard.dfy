/**
 * The WinSCard adapter: the repository operations over a WinScardContext. Each
 * operation is a method on the context struct, proved against a step function
 * on the struct's value (a Session) that says what the call returns and leaves.
 */
module WinScard {
  import opened Wrappers
  import opened CardDomain
  import opened ReaderNames
  import opened SCard

  /** A result code and the context value after an operation. */
  datatype Step = Step(code: CardError, session: Session)

  /**
   * winscard_initialize after its NULL guard: the whole context is zeroed and then
   * receives the handle SCardEstablishContext writes; INIT_FAILED when that call fails.
   */
  function InitializeStep(establish: EstablishReply): (t: Step)
    ensures t.code == Success <==> establish.status == SCardSuccess
    ensures t.code != Success ==> t.code == InitFailed
    ensures t.session == Zeroed().(hContext := establish.hContext)
    ensures t.session.NameTerminated() && !t.session.connected
  {
    Step(if establish.status == SCardSuccess then Success else InitFailed, Zeroed().(hContext := establish.hContext))
  }

  /**
   * winscard_connect after its NULL guards: at most 255 characters of the name are
   * copied into the field, SCardConnect is given that copy, its card handle and
   * protocol are stored, and only a successful connect sets the flag.
   */
  function ConnectStep(s: Session, name: string, connector: Connector): (t: Step)
    requires s.WellFormed()
    ensures t.session.WellFormed()
    ensures t.session.readerName == StrNCopy(s.readerName, name, ReaderNameSize - 1)
    ensures s.NameTerminated() ==> t.session.NameTerminated() && CString(t.session.readerName) == Truncated(name)
    ensures s.NameTerminated() ==>
      var reply := connector(s.hContext, Truncated(name));
      && (t.code == Success <==> reply.status == SCardSuccess)
      && t.session.hCard == reply.hCard && t.session.activeProtocol == reply.activeProtocol
    ensures t.code != Success ==> t.code == ConnectFailed && t.session.connected == s.connected
    ensures t.code == Success ==> t.session.connected
    ensures t.session.hContext == s.hContext
  {
    var stored := StrNCopy(s.readerName, name, ReaderNameSize - 1);
    assert s.NameTerminated() ==> stored[ReaderNameSize - 1] == NUL && CString(stored) == Truncated(name) by {
      if s.NameTerminated() {
        StoredNameIsTruncatedName(s.readerName, name);
      }
    }
    var reply := connector(s.hContext, CString(stored));
    var next := s.(readerName := stored, hCard := reply.hCard, activeProtocol := reply.activeProtocol);
    if reply.status != SCardSuccess then Step(ConnectFailed, next) else Step(Success, next.(connected := true))
  }

  /**
   * winscard_disconnect after its NULL guard: nothing to do when not connected;
   * otherwise the flag is cleared only when SCardDisconnect succeeds.
   */
  function DisconnectStep(s: Session, status: int): (t: Step)
    ensures t.code == Success <==> !s.connected || status == SCardSuccess
    ensures t.code == Success ==> t.session == s.(connected := false)
    ensures t.code != Success ==> t.code == ConnectFailed && t.session == s && s.connected
  {
    if !s.connected then Step(Success, s)
    else if status != SCardSuccess then Step(ConnectFailed, s)
    else Step(Success, s.(connected := false))
  }

  /**
   * winscard_release after its NULL guard: a connected context is disconnected
   * first, whatever that returns; a nonzero context handle is then released and
   * cleared, or INIT_FAILED is returned with the handle kept.
   */
  function ReleaseStep(s: Session, disconnectStatus: int, releaseStatus: int): (t: Step)
    ensures t.code == Success <==> s.hContext == 0 || releaseStatus == SCardSuccess
    ensures t.code == Success ==> t.session.hContext == 0
    ensures t.code != Success ==> t.code == InitFailed && t.session.hContext == s.hContext
    ensures t.session.connected <==> s.connected && disconnectStatus != SCardSuccess
    ensures t.session.readerName == s.readerName && t.session.hCard == s.hCard
  {
    var afterDisconnect := if s.connected then DisconnectStep(s, disconnectStatus).session else s;
    if afterDisconnect.hContext == 0 then Step(Success, afterDisconnect)
    else if releaseStatus != SCardSuccess then Step(InitFailed, afterDisconnect)
    else Step(Success, afterDisconnect.(hContext := 0))
  }

  /**
   * What winscard_transmit returns, the bytes SCardTransmit writes into the
   * response buffer, and the value left in *responseLength.
   */
  datatype Transfer = Transfer(code: CardError, received: seq<byte>, length: nat)

  /**
   * winscard_transmit after its NULL guards: CONNECT_FAILED when not connected,
   * TRANSMIT_FAILED for a protocol other than T=0 and T=1 or a failing
   * SCardTransmit; the received length is passed back only on success.
   */
  function TransmitStep(s: Session, command: seq<byte>, capacity: nat, exchange: Exchange): (t: Transfer)
    ensures t.code == Success <==>
      s.connected && SupportedProtocol(s.activeProtocol) && exchange(s.hCard, command, capacity).status == SCardSuccess
    ensures !s.connected ==> t == Transfer(ConnectFailed, [], capacity)
    ensures s.connected && !SupportedProtocol(s.activeProtocol) ==> t == Transfer(TransmitFailed, [], capacity)
    ensures t.code == Success ==> t.length == exchange(s.hCard, command, capacity).length
    ensures t.code != Success ==> t.length == capacity && t.code in {ConnectFailed, TransmitFailed}
  {
    if !s.connected then Transfer(ConnectFailed, [], capacity)
    else if !SupportedProtocol(s.activeProtocol) then Transfer(TransmitFailed, [], capacity)
    else
      var reply := exchange(s.hCard, command, capacity);
      if reply.status != SCardSuccess then Transfer(TransmitFailed, reply.received, capacity)
      else Transfer(Success, reply.received, reply.length)
  }

  /** The state-changing calls a client can make on one context. */
  datatype Call =
    | InitializeCall(establish: EstablishReply)
    | ConnectCall(name: string, connector: Connector)
    | DisconnectCall(status: int)
    | ReleaseCall(disconnectStatus: int, releaseStatus: int)

  function Apply(s: Session, call: Call): (t: Step)
    requires s.WellFormed()
    ensures t.session.WellFormed()
  {
    match call
    case InitializeCall(establish) => InitializeStep(establish)
    case ConnectCall(name, connector) => ConnectStep(s, name, connector)
    case DisconnectCall(status) => DisconnectStep(s, status)
    case ReleaseCall(disconnectStatus, releaseStatus) => ReleaseStep(s, disconnectStatus, releaseStatus)
  }

  function Run(s: Session, calls: seq<Call>): (t: Session)
    requires s.WellFormed()
    ensures t.WellFormed()
    decreases |calls|
  {
    if calls == [] then s else Run(Apply(s, calls[0]).session, calls[1..])
  }

  /**
   * Once initialized, the stored reader name stays NUL-terminated whatever calls
   * follow, because connect never writes the last character of the field.
   */
  lemma {:induction false} NameStaysTerminated(s: Session, calls: seq<Call>)
    requires s.NameTerminated()
    ensures Run(s, calls).NameTerminated()
    decreases |calls|
  {
    if calls != [] {
      var next := Apply(s, calls[0]).session;
      assert next.NameTerminated();
      NameStaysTerminated(next, calls[1..]);
    }
  }

  /** After an initialize and any later calls, a connect hands SCardConnect the caller's name cut to 255 characters. */
  lemma ConnectAfterInitialize(establish: EstablishReply, calls: seq<Call>, name: string, connector: Connector)
    ensures var s := Run(InitializeStep(establish).session, calls);
      var t := ConnectStep(s, name, connector);
      && (t.code == Success <==> connector(s.hContext, Truncated(name)).status == SCardSuccess)
      && CString(t.session.readerName) == Truncated(name)
  {
    NameStaysTerminated(InitializeStep(establish).session, calls);
  }

  // ---------------------------------------------------------------------------
  // The context struct and the adapter's functions
  // ---------------------------------------------------------------------------

  /** struct WinScardContext; isConnected is an int used as a flag (0 or 1). */
  class WinScardContext {
    var hContext: nat
    var hCard: nat
    var dwActiveProtocol: nat
    var readerName: array<char>
    var isConnected: bool

    ghost predicate Valid()
      reads this
    {
      readerName.Length == ReaderNameSize
    }

    ghost function State(): Session
      reads this, readerName
    {
      Session(hContext, hCard, dwActiveProtocol, readerName[..], isConnected)
    }

    /** Storage for a context before winscard_initialize: its field values are arbitrary. */
    constructor ()
      ensures Valid()
    {
      readerName := new char[ReaderNameSize];
    }
  }

  /**
   * winscard_initialize. A null `ctx` stands for a NULL CardContext or a NULL
   * pointer inside it.
   */
  method Initialize(ctx: WinScardContext?, establish: EstablishReply) returns (r: CardError)
    requires ctx != null ==> ctx.Valid()
    modifies ctx, if ctx != null then {ctx.readerName} else {}
    ensures ctx == null ==> r == InvalidParameter
    ensures ctx != null ==>
      && ctx.Valid() && ctx.readerName == old(ctx.readerName)
      && r == InitializeStep(establish).code
      && ctx.State() == InitializeStep(establish).session
  {
    if ctx == null {
      return InvalidParameter;
    }
    // Zero the whole struct: both handles, the protocol and every name character.
    ctx.hContext, ctx.hCard, ctx.dwActiveProtocol := 0, 0, 0;
    var field := ctx.readerName;
    forall i | 0 <= i < ReaderNameSize {
      field[i] := NUL;
    }
    ctx.isConnected := false;
    ctx.hContext := establish.hContext;
    if establish.status != SCardSuccess {
      return InitFailed;
    }
    r := Success;
  }

  /** winscard_connect. */
  method Connect(ctx: WinScardContext?, readerName: Option<string>, connector: Connector) returns (r: CardError)
    requires ctx != null ==> ctx.Valid()
    modifies ctx, if ctx != null then {ctx.readerName} else {}
    ensures ctx != null ==> ctx.Valid() && ctx.readerName == old(ctx.readerName)
    ensures ctx == null || readerName.None? ==>
      r == InvalidParameter && (ctx != null ==> ctx.State() == old(ctx.State()))
    ensures ctx != null && readerName.Some? ==>
      var t := ConnectStep(old(ctx.State()), readerName.value, connector);
      r == t.code && ctx.State() == t.session
  {
    if ctx == null || readerName.None? {
      return InvalidParameter;
    }
    var name := CString(readerName.value);
    var m := Min(|name|, ReaderNameSize - 1);
    var field := ctx.readerName;
    ghost var before := field[..];
    // Copy at most 255 characters of the name, padding with NULs; the last character is left alone.
    forall i | 0 <= i < ReaderNameSize - 1 {
      field[i] := if i < m then name[i] else NUL;
    }
    assert field[..] == StrNCopy(before, readerName.value, ReaderNameSize - 1);
    var reply := connector(ctx.hContext, CString(field[..]));
    ctx.hCard := reply.hCard;
    ctx.dwActiveProtocol := reply.activeProtocol;
    if reply.status != SCardSuccess {
      return ConnectFailed;
    }
    ctx.isConnected := true;
    r := Success;
  }

  /** winscard_disconnect; `status` is what SCardDisconnect returns if it is called. */
  method Disconnect(ctx: WinScardContext?, status: int) returns (r: CardError)
    requires ctx != null ==> ctx.Valid()
    modifies ctx
    ensures ctx == null ==> r == InvalidParameter
    ensures ctx != null ==>
      var t := DisconnectStep(old(ctx.State()), status);
      && ctx.Valid() && ctx.readerName == old(ctx.readerName)
      && r == t.code && ctx.State() == t.session
  {
    if ctx == null {
      return InvalidParameter;
    }
    if ctx.isConnected {
      if status != SCardSuccess {
        return ConnectFailed;
      }
      ctx.isConnected := false;
    }
    r := Success;
  }

  /** winscard_release; the statuses are what SCardDisconnect and SCardReleaseContext return if called. */
  method Release(ctx: WinScardContext?, disconnectStatus: int, releaseStatus: int) returns (r: CardError)
    requires ctx != null ==> ctx.Valid()
    modifies ctx
    ensures ctx == null ==> r == InvalidParameter
    ensures ctx != null ==>
      var t := ReleaseStep(old(ctx.State()), disconnectStatus, releaseStatus);
      && ctx.Valid() && ctx.readerName == old(ctx.readerName)
      && r == t.code && ctx.State() == t.session
  {
    if ctx == null {
      return InvalidParameter;
    }
    if ctx.isConnected {
      // The result of the disconnect is not looked at.
      var ignored := Disconnect(ctx, disconnectStatus);
    }
    if ctx.hContext != 0 {
      if releaseStatus != SCardSuccess {
        return InitFailed;
      }
      ctx.hContext := 0;
    }
    r := Success;
  }

  /**
   * winscard_transmit. `responseLength` is the in/out length argument (None for a
   * NULL pointer); the bytes SCardTransmit writes land at the start of `response`.
   */
  method Transmit(ctx: WinScardContext?, command: array?<byte>, commandLength: nat,
                  response: array?<byte>, responseLength: Option<nat>, exchange: Exchange)
    returns (r: CardError, newLength: Option<nat>)
    requires ctx != null ==> ctx.Valid()
    requires command != null ==> commandLength <= command.Length
    requires response != null && responseLength.Some? ==> responseLength.value <= response.Length
    modifies response
    ensures ctx == null || command == null || response == null || responseLength.None? ==>
      r == InvalidParameter && newLength == responseLength
      && (response != null ==> response[..] == old(response[..]))
    ensures ctx != null && command != null && response != null && responseLength.Some? ==>
      var t := TransmitStep(ctx.State(), old(command[..commandLength]), responseLength.value, exchange);
      && r == t.code && newLength == Some(t.length)
      && response[..] == Overwrite(old(response[..]), t.received, responseLength.value)
  {
    if ctx == null || command == null || response == null || responseLength.None? {
      return InvalidParameter, responseLength;
    }
    newLength := responseLength;
    if !ctx.isConnected {
      return ConnectFailed, newLength;
    }
    if ctx.dwActiveProtocol != ProtocolT0 && ctx.dwActiveProtocol != ProtocolT1 {
      return TransmitFailed, newLength;
    }
    var capacity := responseLength.value;
    var reply := exchange(ctx.hCard, command[..commandLength], capacity);
    var k := Min(|reply.received|, capacity);
    forall i | 0 <= i < k {
      response[i] := reply.received[i];
    }
    if reply.status != SCardSuccess {
      return TransmitFailed, newLength;
    }
    r, newLength := Success, Some(reply.length);
  }

  // ---------------------------------------------------------------------------
  // Listing readers
  // ---------------------------------------------------------------------------

  /** The name strings among the first `n` entries of a pointer table. */
  ghost function NameSet(table: seq<array?<char>>, n: nat): set<object>
  {
    set i | 0 <= i < n && i < |table| && table[i] != null :: table[i] as object
  }

  /** Everything a successful listing hands its caller: the pointer table and each name string. */
  ghost function Storage(readers: array<array?<char>>, count: nat): set<object>
    reads readers
  {
    {readers as object} + NameSet(readers[..], count)
  }

  lemma NameSetExtend(table: seq<array?<char>>, n: nat)
    requires n < |table|
    ensures NameSet(table, n + 1) == NameSet(table, n) + (if table[n] == null then {} else {table[n] as object})
  {
  }

  lemma NameSetUpdateAbove(table: seq<array?<char>>, n: nat, j: nat, name: array?<char>)
    requires n <= j < |table|
    ensures NameSet(table[j := name], n) == NameSet(table, n)
  {
    assert forall i | 0 <= i < n :: table[j := name][i] == table[i];
  }

  /** No name allocation among the first `n` fails: `nameFailure` is the index of the first that does, if any. */
  predicate AllAllocated(nameFailure: Option<nat>, n: nat)
  {
    nameFailure.None? || nameFailure.value >= n
  }

  /** The counting walk of winscard_list_readers: the number of names before the empty one. */
  method CountNames(raw: array<char>) returns (n: nat)
    requires Terminated(raw[..])
    ensures n == |Split(raw[..])|
  {
    ghost var buffer := raw[..];
    n := 0;
    var p: nat := 0;
    while raw[p] != NUL
      invariant p < raw.Length && TerminatedFrom(buffer, p)
      invariant n + |SplitFrom(buffer, p)| == |Split(buffer)|
      decreases raw.Length - p
    {
      ghost var next := WalkStep(buffer, p);
      assert raw[p..] == buffer[p..];
      n := n + 1;
      p := p + StrLen(raw[p..]) + 1;
      assert p == next;
    }
    WalkEnds(buffer, p);
  }

  /**
   * malloc and strcpy of the i-th name, which starts at p: fresh storage holding
   * the name and its NUL, and the offset just past that NUL, where the next name starts.
   */
  method CopyName(raw: array<char>, p: nat, ghost i: nat, ghost starts: seq<nat>, ghost names: seq<string>)
    returns (name: array<char>, next: nat)
    requires Layout(raw[..], starts, names) && i < |names| && p == starts[i]
    ensures fresh(name) && name[..] == names[i] + [NUL]
    ensures i + 1 < |names| ==> next == starts[i + 1]
  {
    ghost var buffer := raw[..];
    assert NameAt(buffer, p, names[i]);
    StrLenAtName(buffer, p, names[i]);
    assert raw[p..] == buffer[p..];
    var len := StrLen(raw[p..]) + 1;
    name := new char[len];
    forall k | 0 <= k < len {
      name[k] := raw[p + k];
    }
    assert name[..] == buffer[p..p + len - 1] + [buffer[p + len - 1]];
    next := p + len;
  }

  /**
   * Releases the first `count` entries of a name table (a NULL entry is a no-op):
   * the cleanup loop after a failed name allocation, and the first loop of
   * winscard_free_readers. `remaining` is `owned` without the released names.
   */
  method ReleaseNames(table: array<array?<char>>, count: nat, ghost owned: set<object>) returns (ghost remaining: set<object>)
    requires count <= table.Length
    ensures remaining == owned - NameSet(table[..], count)
  {
    remaining := owned;
    var j := 0;
    while j < count
      invariant j <= count
      invariant remaining == owned - NameSet(table[..], j)
    {
      NameSetExtend(table[..], j);
      if table[j] != null {
        remaining := remaining - {table[j] as object};
      }
      j := j + 1;
    }
  }

  /**
   * The copying loop of winscard_list_readers: each name, with its NUL, goes into
   * storage of its own, distinct from the buffer and from every other name. When
   * an allocation fails, the names copied so far are released; `copied` is the
   * name storage left allocated.
   */
  method CopyNames(raw: array<char>, table: array<array?<char>>, nameFailure: Option<nat>) returns (ok: bool, ghost copied: set<object>)
    requires Terminated(raw[..]) && table.Length == |Split(raw[..])|
    modifies table
    ensures ok <==> AllAllocated(nameFailure, table.Length)
    ensures ok ==> forall k | 0 <= k < table.Length :: table[k] != null && table[k][..] == Split(raw[..])[k] + [NUL]
    ensures ok ==> forall j, k | 0 <= j < k < table.Length :: table[j] != table[k]
    ensures ok ==> copied == NameSet(table[..], table.Length) && raw !in copied
    ensures !ok ==> copied == {}
    ensures fresh(copied)
  {
    ghost var buffer := raw[..];
    ghost var names := Split(buffer);
    ghost var starts := Starts(buffer, 0);
    LayoutFrom(buffer, 0);
    var n := table.Length;
    var p: nat := 0;
    var i := 0;
    copied := {};
    while i < n
      invariant i <= n
      invariant i < n ==> p == starts[i]
      invariant forall k | 0 <= k < i :: table[k] != null && table[k] != raw && table[k][..] == names[k] + [NUL]
      invariant forall j, k | 0 <= j < k < i :: table[j] != table[k]
      invariant copied == NameSet(table[..], i) && fresh(copied)
      invariant AllAllocated(nameFailure, i)
    {
      if nameFailure == Some(i) {
        copied := ReleaseNames(table, i, copied);
        return false, copied;
      }
      var name;
      name, p := CopyName(raw, p, i, starts, names);
      NameSetUpdateAbove(table[..], i, i, name);
      table[i] := name;
      NameSetExtend(table[..], i);
      copied := copied + {name};
      i := i + 1;
    }
    ok := true;
  }

  /**
   * winscard_list_readers. The SCardListReaders calls enter as the status of the
   * sizing call and the status and contents of the listing call; the allocations
   * as flags, except that `nameFailure` is the index of the first name whose
   * allocation fails, if any. `outputs` is false when either
   * output pointer is NULL; `readersIn` and `countIn` are what the caller's
   * variables held before the call. The ghost `owned` is the storage the call
   * leaves allocated: nothing on any failure, the table and its names on success.
   */
  method ListReaders(ctx: WinScardContext?, outputs: bool, readersIn: array?<array?<char>>, countIn: nat,
                     sizeStatus: int, bufferAlloc: bool, listStatus: int, buffer: seq<char>,
                     tableAlloc: bool, nameFailure: Option<nat>)
    returns (r: CardError, readers: array?<array?<char>>, count: nat, ghost owned: set<object>)
    requires listStatus == SCardSuccess ==> Terminated(buffer)
    ensures fresh(owned)
    ensures ctx == null || !outputs ==>
      r == InvalidParameter && readers == readersIn && count == countIn && owned == {}
    ensures ctx != null && outputs && sizeStatus != SCardSuccess ==>
      && owned == {}
      && (sizeStatus == SCardNoReadersAvailable ==> r == Success && readers == null && count == 0)
      && (sizeStatus != SCardNoReadersAvailable ==> r == InitFailed && readers == readersIn && count == countIn)
    ensures ctx != null && outputs && sizeStatus == SCardSuccess && (!bufferAlloc || listStatus != SCardSuccess) ==>
      && r == (if bufferAlloc then InitFailed else MemoryAllocation)
      && readers == readersIn && count == countIn && owned == {}
    ensures ctx != null && outputs && sizeStatus == SCardSuccess && bufferAlloc && listStatus == SCardSuccess ==>
      var names := Split(buffer);
      && count == |names|
      && (names == [] ==> r == Success && readers == null && owned == {})
      && (names != [] && !tableAlloc ==> r == MemoryAllocation && readers == null && owned == {})
      && (names != [] && tableAlloc && !AllAllocated(nameFailure, |names|) ==>
            r == MemoryAllocation && readers != null && readers.Length == count && owned == {})
      && (names != [] && tableAlloc && AllAllocated(nameFailure, |names|) ==>
            && r == Success && readers != null && readers.Length == count
            && (forall i | 0 <= i < count :: readers[i] != null && readers[i][..] == names[i] + [NUL])
            && (forall i, j | 0 <= i < j < count :: readers[i] != readers[j])
            && fresh(readers) && owned == Storage(readers, count))
  {
    owned := {};
    if ctx == null || !outputs {
      return InvalidParameter, readersIn, countIn, owned;
    }
    if sizeStatus != SCardSuccess {
      if sizeStatus == SCardNoReadersAvailable {
        return Success, null, 0, owned;
      }
      return InitFailed, readersIn, countIn, owned;
    }
    if !bufferAlloc {
      return MemoryAllocation, readersIn, countIn, owned;
    }
    var raw := new char[|buffer|];
    owned := owned + {raw};
    if listStatus != SCardSuccess {
      owned := owned - {raw};
      return InitFailed, readersIn, countIn, owned;
    }
    forall i | 0 <= i < |buffer| {
      raw[i] := buffer[i];
    }
    assert raw[..] == buffer;
    count := CountNames(raw);
    if count == 0 {
      owned := owned - {raw};
      return Success, null, count, owned;
    }
    if !tableAlloc {
      owned := owned - {raw};
      return MemoryAllocation, null, count, owned;
    }
    var table := new array?<char>[count];
    owned := owned + {table};
    readers := table;
    var ok;
    ghost var copied;
    ok, copied := CopyNames(raw, table, nameFailure);
    owned := owned + copied;
    if !ok {
      // The table and the buffer are released; the caller's pointer is left dangling.
      owned := owned - {table} - {raw};
      return MemoryAllocation, readers, count, owned;
    }
    // The buffer is released; the table and the names now belong to the caller.
    owned := owned - {raw};
    r := Success;
  }

  /**
   * winscard_free_readers: a NULL table is ignored; otherwise the first `count`
   * entries are released (a NULL entry is a no-op) and then the table.
   */
  method FreeReaders(readers: array?<array?<char>>, count: nat, ghost owned: set<object>) returns (ghost remaining: set<object>)
    requires readers != null ==> count <= readers.Length
    ensures readers == null ==> remaining == owned
    ensures readers != null ==> remaining == owned - Storage(readers, count)
  {
    remaining := owned;
    if readers == null {
      return;
    }
    remaining := ReleaseNames(readers, count, remaining);
    remaining := remaining - {readers as object};
  }
}
