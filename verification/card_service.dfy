/**
 * The service layer: encodes read, write, rewrite and raw commands as APDUs and
 * hands them to whatever repository port it was wired to, plus the operations
 * table that re-exposes the four business operations.
 */
module CardServices {
  import opened Wrappers
  import opened CardDomain
  import opened Apdu

  /** The service holds references to a port and a context; it owns neither. */
  class CardService {
    var repository: Option<CardRepository>
    var context: CardContext?

    /**
     * A service before card_service_initialize. C leaves the struct uninitialised
     * until then; None and null stand for "not yet initialised" here, not for
     * anything the C guarantees.
     */
    constructor ()
      ensures repository == None && context == null
    {
      repository := None;
      context := null;
    }
  }

  /** The guard every service operation starts with: service, repository and context are all present. */
  predicate Wired(service: CardService?)
    reads service
  {
    service != null && service.repository.Some? && service.context != null
  }

  /**
   * The effect of one exchange through the port on the response buffer: an
   * unallocated buffer first receives 258 bytes (or the exchange stops with
   * MEMORY_ALLOCATION), the port is offered the buffer's recorded length as
   * capacity, its bytes land at the start of the storage, and the length it reports
   * and its code are passed back unchanged, successful or not.
   */
  twostate predicate Exchanged(service: CardService, command: seq<byte>, response: CardData, allocOk: bool, r: CardError)
    requires service.repository.Some? && service.context != null
    reads service, response, response.data
  {
    if old(response.data) == null && !allocOk then
      r == MemoryAllocation && response.data == null && response.length == old(response.length) && !response.released
    else
      var capacity := if old(response.data) == null then MaxResponseLength else old(response.length);
      var reply := service.repository.value.transmit(service.context, command, capacity);
      var k := Min(|reply.received|, capacity);
      && r == reply.code
      && response.length == reply.length
      && response.data != null
      && response.data.Length >= capacity
      && !response.released
      && (old(response.data) != null ==>
            response.data == old(response.data)
            && response.data[..] == Overwrite(old(response.data[..]), reply.received, capacity))
      && (old(response.data) == null ==>
            fresh(response.data) && response.data.Length == MaxResponseLength
            && response.data[..k] == reply.received[..k])
  }

  /**
   * card_service_initialize: stores the repository and context, then returns the
   * port's initialize verbatim, so the fields stay set when it fails.
   */
  method Initialize(service: CardService?, repository: Option<CardRepository>, context: CardContext?) returns (r: CardError)
    modifies service
    ensures service == null || repository.None? || context == null ==>
      r == InvalidParameter && (service != null ==> service.repository == old(service.repository) && service.context == old(service.context))
    ensures service != null && repository.Some? && context != null ==>
      service.repository == repository && service.context == context && r == repository.value.initialize(context)
  {
    if service == null || repository.None? || context == null {
      return InvalidParameter;
    }
    service.repository := repository;
    service.context := context;
    r := repository.value.initialize(context);
  }

  /** card_service_connect: forwards to the port unless something is missing. */
  method Connect(service: CardService?, readerName: Option<string>) returns (r: CardError)
    ensures r == if !Wired(service) || readerName.None? then InvalidParameter
                 else service.repository.value.connect(service.context, readerName.value)
  {
    if !Wired(service) || readerName.None? {
      return InvalidParameter;
    }
    r := service.repository.value.connect(service.context, readerName.value);
  }

  /** card_service_disconnect: forwards to the port unless something is missing. */
  method Disconnect(service: CardService?) returns (r: CardError)
    ensures r == if !Wired(service) then InvalidParameter else service.repository.value.disconnect(service.context)
  {
    if !Wired(service) {
      return InvalidParameter;
    }
    r := service.repository.value.disconnect(service.context);
  }

  /** card_service_release: forwards to the port unless something is missing. */
  method Release(service: CardService?) returns (r: CardError)
    ensures r == if !Wired(service) then InvalidParameter else service.repository.value.release(service.context)
  {
    if !Wired(service) {
      return InvalidParameter;
    }
    r := service.repository.value.release(service.context);
  }

  /**
   * card_service_execute_command: INVALID_PARAMETER without calling the port when
   * anything is missing; otherwise one exchange of the command's bytes into the
   * response buffer.
   */
  method ExecuteCommand(service: CardService?, command: CardData?, response: CardData?, allocOk: bool) returns (r: CardError)
    requires command != null ==> command.Valid()
    requires response != null ==> response.Valid()
    modifies response, if response != null then {response.data} else {}
    ensures !Wired(service) || command == null || old(command.data) == null || response == null ==>
      r == InvalidParameter && (response != null ==> response.data == old(response.data) && response.State() == old(response.State()) && response.Valid())
    ensures Wired(service) && command != null && old(command.data) != null && response != null ==>
      Exchanged(service, old(command.Bytes()), response, allocOk, r)
  {
    if !Wired(service) || command == null || command.data == null || response == null {
      return InvalidParameter;
    }
    var bytes := command.data[..command.length];
    if response.data == null {
      if !allocOk {
        return MemoryAllocation;
      }
      response.data := new byte[MaxResponseLength];
      response.length := MaxResponseLength;
    }
    var capacity := response.length;
    var reply := service.repository.value.transmit(service.context, bytes, capacity);
    var storage := response.data;
    var k := Min(|reply.received|, capacity);
    forall i | 0 <= i < k {
      storage[i] := reply.received[i];
    }
    response.length := reply.length;
    r := reply.code;
  }

  /**
   * card_service_read_data: READ BINARY of `length` bytes at `address`, exchanged
   * into the caller's buffer.
   */
  method ReadData(service: CardService?, address: byte, length: nat, data: CardData?, allocOk: bool) returns (r: CardError)
    requires data != null ==> data.Valid()
    modifies data, if data != null then {data.data} else {}
    ensures !Wired(service) || data == null ==>
      r == InvalidParameter && (data != null ==> data.data == old(data.data) && data.State() == old(data.State()) && data.Valid())
    ensures Wired(service) && data != null ==> Exchanged(service, ReadBinaryCommand(address, length), data, allocOk, r)
  {
    if !Wired(service) || data == null {
      return InvalidParameter;
    }
    var commandData := new byte[HeaderLength];
    commandData[0] := Cla;
    commandData[1] := InsReadBinary;
    commandData[2] := 0x00;
    commandData[3] := address;
    commandData[4] := LowByte(length);
    var command := new CardData.Wrap(commandData, HeaderLength);
    assert command.Bytes() == ReadBinaryCommand(address, length);
    r := ExecuteCommand(service, command, data, allocOk);
  }

  /**
   * The result of write or rewrite: INVALID_PARAMETER when anything is missing,
   * MEMORY_ALLOCATION when the command storage cannot be had, otherwise the code
   * of one exchange of the data command with a 258-byte response buffer. The
   * status word is never looked at.
   */
  ghost function StoreOutcome(service: CardService?, ins: byte, address: byte, data: CardData?, allocOk: bool): CardError
    reads service, data, if data != null then {data.data} else {}
    requires data != null ==> data.Valid()
  {
    if !Wired(service) || data == null || data.data == null then InvalidParameter
    else if !allocOk then MemoryAllocation
    else service.repository.value.transmit(service.context, DataCommand(ins, address, data.Bytes()), MaxResponseLength).code
  }

  /** The body shared by write and rewrite, which differ only in the instruction byte. */
  method StoreData(service: CardService?, ins: byte, address: byte, data: CardData?, allocOk: bool) returns (r: CardError)
    requires data != null ==> data.Valid()
    ensures r == StoreOutcome(service, ins, address, data, allocOk)
  {
    if !Wired(service) || data == null || data.data == null {
      return InvalidParameter;
    }
    if !allocOk {
      return MemoryAllocation;
    }
    var commandData := FillDataCommand(ins, address, data.data, data.length);
    var command := new CardData.Wrap(commandData, HeaderLength + data.length);
    assert command.Bytes() == commandData[..] == DataCommand(ins, address, data.Bytes());
    var responseData := new byte[MaxResponseLength];
    var response := new CardData.Wrap(responseData, MaxResponseLength);
    r := ExecuteCommand(service, command, response, true);
    // Both local buffers are released here; only the code leaves.
  }

  /** card_service_write_data: sends exactly FF D0 00 address n, then the n data bytes. */
  method WriteData(service: CardService?, address: byte, data: CardData?, allocOk: bool) returns (r: CardError)
    requires data != null ==> data.Valid()
    ensures r == StoreOutcome(service, InsWriteBinary, address, data, allocOk)
  {
    r := StoreData(service, InsWriteBinary, address, data, allocOk);
  }

  /** card_service_rewrite_data: the same bytes as write with instruction D6. */
  method RewriteData(service: CardService?, address: byte, data: CardData?, allocOk: bool) returns (r: CardError)
    requires data != null ==> data.Valid()
    ensures r == StoreOutcome(service, InsUpdateBinary, address, data, allocOk)
  {
    r := StoreData(service, InsUpdateBinary, address, data, allocOk);
  }

  // ---------------------------------------------------------------------------
  // The operations facade (struct CardOperations)
  // ---------------------------------------------------------------------------

  /** The callbacks the table can hold, one type per slot signature. */
  datatype ReadCallback = ServiceReadData
  datatype StoreCallback = ServiceWriteData | ServiceRewriteData
  {
    /** The instruction byte the callback's command carries. */
    function Instruction(): byte
    {
      if this == ServiceWriteData then InsWriteBinary else InsUpdateBinary
    }
  }
  datatype ExecuteCallback = ServiceExecuteCommand

  datatype CardOperations = CardOperations(
    readData: ReadCallback,
    writeData: StoreCallback,
    rewriteData: StoreCallback,
    executeCommand: ExecuteCallback)

  /** card_service_get_operations: the write slot sends WRITE BINARY and the rewrite slot UPDATE BINARY. */
  function GetOperations(service: CardService?): (ops: CardOperations)
    ensures ops.writeData.Instruction() == InsWriteBinary
    ensures ops.rewriteData.Instruction() == InsUpdateBinary
  {
    CardOperations(ServiceReadData, ServiceWriteData, ServiceRewriteData, ServiceExecuteCommand)
  }

  /** service_read_data_callback: the same result and effect as card_service_read_data. */
  method ReadDataCallback(service: CardService?, address: byte, length: nat, data: CardData?, allocOk: bool) returns (r: CardError)
    requires data != null ==> data.Valid()
    modifies data, if data != null then {data.data} else {}
    ensures !Wired(service) || data == null ==>
      r == InvalidParameter && (data != null ==> data.data == old(data.data) && data.State() == old(data.State()) && data.Valid())
    ensures Wired(service) && data != null ==> Exchanged(service, ReadBinaryCommand(address, length), data, allocOk, r)
  {
    r := ReadData(service, address, length, data, allocOk);
  }

  /** service_write_data_callback and service_rewrite_data_callback: the result of the operation the slot names. */
  method StoreCallbackInvoke(callback: StoreCallback, service: CardService?, address: byte, data: CardData?, allocOk: bool) returns (r: CardError)
    requires data != null ==> data.Valid()
    ensures r == StoreOutcome(service, callback.Instruction(), address, data, allocOk)
  {
    match callback
    case ServiceWriteData =>
      r := WriteData(service, address, data, allocOk);
    case ServiceRewriteData =>
      r := RewriteData(service, address, data, allocOk);
  }

  /** service_execute_command_callback: the same result and effect as card_service_execute_command. */
  method ExecuteCommandCallback(service: CardService?, command: CardData?, response: CardData?, allocOk: bool) returns (r: CardError)
    requires command != null ==> command.Valid()
    requires response != null ==> response.Valid()
    modifies response, if response != null then {response.data} else {}
    ensures !Wired(service) || command == null || old(command.data) == null || response == null ==>
      r == InvalidParameter && (response != null ==> response.data == old(response.data) && response.State() == old(response.State()) && response.Valid())
    ensures Wired(service) && command != null && old(command.data) != null && response != null ==>
      Exchanged(service, old(command.Bytes()), response, allocOk, r)
  {
    r := ExecuteCommand(service, command, response, allocOk);
  }
}
