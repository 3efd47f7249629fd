# WinsCardAPI in Dafny

A verified model of the core of WinsCardAPI. It is a small C client for
contact smart cards, built on the PC/SC resource manager (WinSCard). It is
layered like this:

- **Core layer** (`CardDomain`). A card buffer (`CardData`, a byte pointer
  with a single length field that also serves as capacity) and its
  create/free/copy functions. The six result codes. The opaque
  `CardContext` handle. The six-operation repository port that a transport
  adapter supplies.
- **Command framing** (`Apdu`). The command APDUs the service builds: a
  five-byte header `CLA INS P1 P2 P3` as in section 5.1 of ISO/IEC 7816-4,
  with class `FF` and READ BINARY `B0`, WRITE BINARY `D0` and UPDATE BINARY
  `D6`.
- **Service layer** (`CardServices`). Read, write, rewrite and raw-command
  operations over any port. It also holds the rule that gives an
  unallocated response buffer 258 bytes, and the operations table that
  re-exposes the four business operations.
- **Reader multi-string** (`ReaderNames`). The NUL-separated list that
  SCardListReaders returns, ended by an empty name. It is modelled as a walk
  over one buffer, with its inverse `Join` and round-trip lemmas both ways.
- **WinSCard adapter** (`SCard`, `WinScard`):
  - the connection record shared by both transports;
  - step functions for initialize, connect, disconnect, release and
    transmit, on the record's value;
  - the context struct as a class, whose methods are proved against those
    steps;
  - the reader-listing loops (count, copy, clean up) and the matching free
    function, with ghost bookkeeping of the storage they leave allocated.
- **Legacy API** (`SmartCardLegacy`). The older single-layer API with BOOL
  results. Lemmas relate each of its steps to the adapter's: where they
  agree and where they part.

The SCard calls are not part of the model. Each enters as a parameter. For
SCardConnect, SCardTransmit and the legacy API's SCardListReaders it is a
function from the call's inputs to its reply, so that contracts can say
what the call was given. For the other calls it is a status plus the
outputs the call writes. The adapter's two SCardListReaders calls enter
this way: the status of the sizing call, then the status and buffer
contents of the listing call. The outcome of each `malloc` enters as a
boolean parameter. For the per-name
allocations of the reader listing it is instead the index of the first
failing allocation, if any.

Where the code does something other than its interface suggests, the model
follows the code:

- `winscard_transmit` on a context that is not connected returns
  CONNECT_FAILED, not TRANSMIT_FAILED.
- `card_data_create(0)` returns NULL rather than an invalid-parameter
  code.
- `card_data_free` is not idempotent: a second free is excluded by its
  precondition, not made harmless.
- `card_data_copy` into a longer buffer keeps the destination's old
  length.
- The port's `list_readers` slot is declared with a `char**` list, but
  the adapter's function fills a `char***`. The model follows the
  adapter: a list of names.
- When a name allocation fails, `winscard_list_readers` has already stored
  the count in `*readersCount` and the table in `*readers`, and it frees
  the table without resetting either. The caller is left with a dangling
  table and a nonzero count. A following `winscard_free_readers` on them
  would free the table twice. `WinScard.ListReaders` returns that table
  and count, as the code does.

## Model

| member | source | states |
|---|---|---|
| CardDomain.FromCode | src/core/card_domain.h:38-45 | An integer is a result code exactly when it lies in -5..0, and it then reads back as the code with that value |
| CardDomain.CodeRoundTrip | src/core/card_domain.h:38-45 | Every result code reads back as itself from its integer value |
| CardDomain.CodesDistinct | src/core/card_domain.h:38-45 | Two codes have the same integer value only if they are the same code |
| CardDomain.OnlySuccessIsNonNegative | src/core/card_domain.h:38-45 | CARD_SUCCESS is the only non-negative code; every failure lies in -5..-1 |
| CardDomain.CardData.Wrap | src/core/card_domain.h:12-15 | A buffer struct holds exactly the given pointer and length, the length within the storage |
| CardDomain.CardData.Create | card_domain.c:4-24 | NULL exactly when the length is 0 or either allocation fails; otherwise fresh storage of exactly `length` bytes, all zero, and `length` recorded |
| CardDomain.CardData.Free | card_domain.c:26-37 | NULL is ignored; otherwise the storage pointer is cleared and the struct released, and it may not be freed again |
| CardDomain.CardData.Copy | card_domain.c:39-65 | INVALID_PARAMETER with the destination untouched for a NULL destination, source or source storage; otherwise the code and new destination of the copy specification, with the same storage on reuse and fresh storage on reallocation |
| CardDomain.CopyDeliversSource | card_domain.c:45-62 | A successful copy leaves the source bytes at the start of the destination, within its length; a copy fails only when reallocation is needed and fails, leaving NULL storage and length 0 |
| CardDomain.CopyKeepsStaleLength | card_domain.c:45-62 | Copying into a longer buffer keeps its old length, so it reads back as the source followed by its own old tail |
| CardDomain.CopyIdempotent | card_domain.c:39-65 | Repeating a successful copy of the same source changes nothing and needs no allocation |
| CardDomain.CardContext.constructor | src/core/card_domain.h:17-19 | The handle holds the opaque adapter pointer it is given |
| Apdu.ParseFrame | src/services/card_service.c:68-75 | A command is its five header bytes followed by the data, and splitting it recovers exactly both |
| Apdu.ReadBinaryShape | src/services/card_service.c:50-51 | The read command is exactly the five bytes FF B0 00 address (length mod 256) |
| Apdu.DataCommandShape | src/services/card_service.c:62-75 | A data command is 5 + n bytes: FF, the instruction, 00, address, n mod 256, then the n data bytes unchanged |
| Apdu.DataCommandLcMatches | src/services/card_service.c:72 | The Lc byte equals the number of data bytes that follow exactly when there are fewer than 256 |
| Apdu.UpdateDiffersFromWriteOnlyInInstruction | src/services/card_service.c:94-107 | The rewrite command equals the write command for the same arguments except byte 1, which is D6 instead of D0 |
| Apdu.ReadBinaryAsksForLength | src/services/card_service.c:50 | The read command asks the card for exactly `length` bytes when 1 <= length <= 256, and for some other count otherwise |
| Apdu.ExampleFrames | src/ui/main.c:64-113 | The reader's read example sends FF B0 00 00 10, and its rewrite example sends FF D6 00 10 08 followed by the eight data bytes |
| Apdu.FillDataCommand | src/services/card_service.c:62-73 | Fresh storage holding exactly the data command for the instruction, address and first n bytes of the data |
| CardServices.CardService.constructor | card_service.h:12-15 | A service struct starts with no repository and no context |
| CardServices.Initialize | src/services/card_service.c:9-18 | INVALID_PARAMETER with the fields untouched when anything is missing; otherwise the fields are set and the port's initialize result is returned verbatim, even when it fails |
| CardServices.Connect | src/services/card_service.c:20-26 | INVALID_PARAMETER without calling the port when the service, repository, context or name is missing; otherwise exactly the port's connect result |
| CardServices.Disconnect | src/services/card_service.c:28-34 | INVALID_PARAMETER when unwired; otherwise exactly the port's disconnect result |
| CardServices.Release | src/services/card_service.c:36-42 | INVALID_PARAMETER when unwired; otherwise exactly the port's release result |
| CardServices.ExecuteCommand | src/services/card_service.c:120-145 | INVALID_PARAMETER with the response untouched for any missing pointer. An unallocated response first gets 258 bytes, or MEMORY_ALLOCATION without transmitting. The port is offered the response length as capacity, and its bytes, reported length and code come back unchanged, success or not |
| CardServices.ReadData | src/services/card_service.c:44-54 | INVALID_PARAMETER when anything is missing; otherwise one exchange of the READ BINARY command into the caller's buffer |
| CardServices.StoreData | src/services/card_service.c:56-118 | The code of write and rewrite: INVALID_PARAMETER for a missing pointer or data storage, MEMORY_ALLOCATION when the command storage fails, otherwise the port's code for the data command with a 258-byte capacity; the status word is not inspected |
| CardServices.WriteData | src/services/card_service.c:56-86 | The store outcome of the WRITE BINARY (D0) command |
| CardServices.RewriteData | src/services/card_service.c:88-118 | The store outcome of the UPDATE BINARY (D6) command |
| CardServices.GetOperations | src/services/card_service.c:147-156 | The table's write slot sends instruction D0 and its rewrite slot D6 |
| CardServices.ReadDataCallback | src/services/card_service.c:158-160 | The same result and buffer effect as card_service_read_data |
| CardServices.StoreCallbackInvoke | src/services/card_service.c:162-168 | The write and rewrite callbacks return exactly what write and rewrite return |
| CardServices.ExecuteCommandCallback | src/services/card_service.c:170-172 | The same result and buffer effect as card_service_execute_command |
| ReaderNames.NulFrom | src/infrastructure/winscard_adapter.c:95 | The scan that strlen performs stops within the buffer, on a NUL unless it reached the end |
| ReaderNames.NulFromScans | src/infrastructure/winscard_adapter.c:95 | No NUL lies between the start of the scan and where it stops |
| ReaderNames.StrLenAt | src/infrastructure/winscard_adapter.c:75 | strlen at position p is the distance from p to the next NUL |
| ReaderNames.SplitFromValid | src/infrastructure/winscard_adapter.c:71-76 | Every name the walk yields is non-empty and contains no NUL |
| ReaderNames.LayoutFrom | src/infrastructure/winscard_adapter.c:93-107 | Each listed name lies, followed by its NUL, at its start position, and each next name starts just past the previous NUL |
| ReaderNames.StrLenAtName | src/infrastructure/winscard_adapter.c:95 | strlen at a name's start position is the name's length |
| ReaderNames.SplitFromJoin | src/infrastructure/winscard_adapter.c:71-108 | Wherever a joined list of valid names lies in a buffer, the walk from there yields exactly those names and meets the terminator |
| ReaderNames.SplitJoin | src/infrastructure/winscard_adapter.c:71-108 | Splitting a joined list of valid names, whatever follows it, gives back the names, in order |
| ReaderNames.JoinSplit | src/infrastructure/winscard_adapter.c:71-108 | On a terminated buffer, the split names are valid and joining them reproduces a prefix of the buffer |
| ReaderNames.EndsWithEmptyNameIsTerminated | src/infrastructure/winscard_adapter.c:73 | A buffer that ends with two NULs, or is a single NUL, is terminated from every position, so the walk never reads past its end |
| SCard.Zeroed | src/infrastructure/winscard_adapter.c:21-22 | The zeroed record is not connected, has both handles 0 and a NUL-terminated name field |
| SCard.StrNCopy | src/infrastructure/winscard_adapter.c:133 | strncpy writes the C string of the source into the first n characters, pads with NUL and leaves the rest of the field alone |
| SCard.StoredNameIsTruncatedName | src/infrastructure/winscard_adapter.c:133 | Copying into a terminated field keeps its last NUL, and the field then holds the caller's name cut to 255 characters |
| WinScard.InitializeStep | src/infrastructure/winscard_adapter.c:21-31 | The record is zeroed and then given the established handle; the result is success exactly when SCardEstablishContext succeeds, INIT_FAILED otherwise |
| WinScard.ConnectStep | src/infrastructure/winscard_adapter.c:133-149 | SCardConnect is given the name cut to 255 characters, and its handle and protocol are stored. Only success sets the flag; a failure returns CONNECT_FAILED with the flag unchanged |
| WinScard.DisconnectStep | src/infrastructure/winscard_adapter.c:159-168 | Success when not connected or when SCardDisconnect succeeds, and only then is the flag cleared; otherwise CONNECT_FAILED with the record unchanged |
| WinScard.ReleaseStep | src/infrastructure/winscard_adapter.c:178-193 | A connected record is disconnected first, whatever that returns. Success exactly when the handle is 0 or SCardReleaseContext succeeds, leaving the handle 0; otherwise INIT_FAILED with the handle kept |
| WinScard.TransmitStep | src/infrastructure/winscard_adapter.c:204-233 | Success exactly when connected, on T=0 or T=1, and SCardTransmit succeeds. Not connected gives CONNECT_FAILED; otherwise failure is TRANSMIT_FAILED. The length changes only on success, to the received count |
| WinScard.NameStaysTerminated | src/infrastructure/winscard_adapter.c:133 | After initialize, the stored name stays NUL-terminated through any sequence of calls |
| WinScard.ConnectAfterInitialize | src/infrastructure/winscard_adapter.c:13-150 | After an initialize and any later calls, connect hands SCardConnect the caller's name cut to 255 characters |
| WinScard.WinScardContext.constructor | src/infrastructure/winscard_adapter.h:13-19 | The context struct has a 256-character name field |
| WinScard.Initialize | src/infrastructure/winscard_adapter.c:13-32 | INVALID_PARAMETER for a missing context; otherwise the result and new record of the initialize step |
| WinScard.Connect | src/infrastructure/winscard_adapter.c:125-150 | INVALID_PARAMETER with nothing changed for a missing context or name; otherwise the result and new record of the connect step |
| WinScard.Disconnect | src/infrastructure/winscard_adapter.c:152-169 | INVALID_PARAMETER for a missing context; otherwise the disconnect step |
| WinScard.Release | src/infrastructure/winscard_adapter.c:171-194 | INVALID_PARAMETER for a missing context; otherwise the release step |
| WinScard.Transmit | src/infrastructure/winscard_adapter.c:196-234 | INVALID_PARAMETER with nothing changed for any missing pointer; otherwise the transmit step's code and length, and its received bytes land at the start of the response |
| WinScard.CountNames | src/infrastructure/winscard_adapter.c:70-76 | The counting walk returns the number of names before the empty one |
| WinScard.CopyName | src/infrastructure/winscard_adapter.c:95-107 | One allocation and strcpy: fresh storage holding the i-th name and its NUL, and the offset where the next name starts |
| WinScard.ReleaseNames | src/infrastructure/winscard_adapter.c:97-105 | After a failed name allocation, exactly the names in the first `count` entries leave the set of allocated storage |
| WinScard.CopyNames | src/infrastructure/winscard_adapter.c:92-108 | Succeeds exactly when every name allocation does. Then entry i holds the i-th name and its NUL, in newly allocated storage distinct from the buffer and from every other entry. Otherwise the names it allocated are released, so nothing it allocated is left |
| WinScard.ListReaders | src/infrastructure/winscard_adapter.c:34-112 | The listing's result on every path. INVALID_PARAMETER for missing pointers. Success with no table when no readers are available or the list is empty. INIT_FAILED or MEMORY_ALLOCATION on failed calls or allocations. Storage is added to a ghost set where the code allocates it and removed where the code frees it, and on every failure the set ends empty. Everything in the set is newly allocated, so none of the caller's own storage is in it. On success, the count and, in order, each name with its NUL in distinct storage, with the newly allocated table and the names the only storage left |
| WinScard.FreeReaders | src/infrastructure/winscard_adapter.c:114-123 | A NULL table is ignored; otherwise the first `count` names and then the table are released |
| SmartCardLegacy.LegacyDisconnect | smart_card_service.c:55-60 | The legacy disconnect always leaves the record disconnected and changes nothing else |
| SmartCardLegacy.LegacyRelease | smart_card_service.c:62-69 | The legacy release always leaves the record disconnected with context handle 0, whatever the SCard calls return |
| SmartCardLegacy.DisconnectAgreesWithAdapter | smart_card_service.c:55-60 | The legacy disconnect leaves the same record as the adapter's exactly when there was nothing to disconnect or SCardDisconnect succeeded |
| SmartCardLegacy.ReleaseAgreesWithAdapter | smart_card_service.c:62-69 | The legacy release leaves the same record as the adapter's exactly when every SCard call it makes succeeds |
| SmartCardLegacy.ReleaseIdempotent | smart_card_service.c:62-69 | Releasing twice leaves what releasing once does |
| SmartCardLegacy.ReadStep | smart_card_service.c:71-99 | TRUE exactly when connected, on T=0 or T=1, and SCardTransmit succeeds. Without the gate, nothing is sent and the length is kept; past it, the length becomes SCardTransmit's, on failure too |
| SmartCardLegacy.ReadAgreesWithTransmit | smart_card_service.c:71-99 | The legacy read succeeds exactly when the adapter's transmit does, with the same received bytes; the lengths differ only after a failing SCardTransmit that changed the length |
| SmartCardLegacy.SmartCardContext.constructor | smart_card_service.h:10-16 | The legacy context struct has a 256-character name field |
| SmartCardLegacy.InitializeSmartCard | smart_card_service.c:3-16 | The record is zeroed, marked disconnected and given the established handle; TRUE exactly when SCardEstablishContext succeeds |
| SmartCardLegacy.ListReaders | smart_card_service.c:18-32 | TRUE exactly when SCardListReaders succeeds, so no readers available is a failure; the text and length it writes reach the caller |
| SmartCardLegacy.ConnectToCard | smart_card_service.c:34-53 | The adapter's connect step: the flag is set only when SCardConnect succeeds, and TRUE exactly then |
| SmartCardLegacy.DisconnectFromCard | smart_card_service.c:55-60 | The new record is the legacy disconnect of the old one |
| SmartCardLegacy.ReleaseSmartCard | smart_card_service.c:62-69 | The new record is the legacy release of the old one |
| SmartCardLegacy.ReadFromCard | smart_card_service.c:71-99 | The read step's result and length, with its received bytes at the start of the response |
| SmartCardLegacy.WriteToCard | smart_card_service.c:101-104 | Exactly what ReadFromCard does on the same arguments |
| SmartCardLegacy.RewriteCardData | smart_card_service.c:106-126 | FALSE with nothing sent when the command storage fails. Otherwise the read step for the UPDATE BINARY command on the data, the same bytes as the service's rewrite |

## Left out

- The SCard calls themselves (SCardEstablishContext, SCardListReaders,
  SCardConnect, SCardTransmit, SCardDisconnect, SCardReleaseContext). They
  are foreign Windows calls and enter as parameters. Apart from the
  assumption in the next line, the model does not bound what they return.
  For example, a reply may report more bytes than the capacity offered.
- `WinScard.ListReaders` assumes that a successful SCardListReaders fills
  the buffer with a multi-string ended by an empty name (its
  `Terminated(buffer)` precondition). The count walk
  (src/infrastructure/winscard_adapter.c:73-76) reads past the end of a
  buffer without one. That over-read is not modelled.
- `CardDomain.CardData.Copy` does not record the release of the
  destination's old storage (card_domain.c:47-49). Only the new storage
  and length are kept.
- `CardDomain.CardData.Free` does not record the release of the byte
  storage (card_domain.c:31-33). Only the cleared pointer and the struct's
  `released` flag are kept.
- `CardDomain.CardData.Copy` gives a clean copy of the source when the
  destination and the source share storage and the destination is
  shorter. In that case the C frees the shared block (card_domain.c:48)
  and then copies from it (card_domain.c:62): a use after free, whose
  outcome the model does not capture.
- `WinScard.FreeReaders` removes storage from the ghost set without
  checking that it is still allocated. It therefore does not detect the
  double free described above for a failed name allocation.
- `winscard_create_repository` (src/infrastructure/winscard_adapter.c:236-247).
  The port is a datatype of function values, and the adapter's operations
  are methods over a mutable context, which cannot be stored as function
  values. Each slot's target is modelled as a method of `WinScard`. The
  service is proved against any port, so the adapter's state changes behind
  the port are not visible to the service model.
- `get_winscard_context` and the `void*` casts. The adapter methods take the
  resolved context struct, and null stands for a NULL CardContext or a NULL
  pointer inside it.
- The operations table's function pointers. Each slot holds a tag naming its
  callback, and dispatch on the tag forwards to the service function.
- Integer widths. The response length is converted from `size_t` to `DWORD`
  and back, and `5 + dataLength` can wrap in `DWORD`; neither truncation is
  modelled, and lengths are unbounded naturals. The one-byte length field
  (`(uint8_t)length`) is modelled as the length mod 256.
- `free` is ghost bookkeeping: a `released` flag on CardData, and the set of
  storage objects the reader listing leaves allocated. The storage of
  fresh local buffers in the service and legacy functions is dropped rather
  than tracked.
- The allocations at src/services/card_service.c:77 and :109 are never
  checked by the code. The model treats them as always succeeding.
- NULL pointers into the legacy functions are excluded by their types,
  because the C code dereferences them or hands them on unchecked:
  - a NULL `context`, in every legacy function;
  - a NULL `command` (ReadFromCard) or `data` (WriteToCard,
    RewriteCardData), which reaches SCardTransmit or the copy into the
    command buffer;
  - a NULL `readerName` (ConnectToCard);
  - NULL response buffers and NULL length pointers, which reach
    SCardTransmit or SCardListReaders.
- `SmartCardLegacy.ListReaders` models the call's output only. It does not
  parse the multi-string; the adapter's listing does that.
- `SmartCardLegacy.DisconnectFromCard` and
  `SmartCardLegacy.ReleaseSmartCard` take no SCard statuses, because the
  code ignores them.
- The checks on the SW1 SW2 status word (90 00) in the UI examples are not
  modelled. Neither layer inspects the status word.
- The contents of a context struct before initialize are arbitrary in C.
  The constructors fix only the size of the name field.
- `src/ui/main.c` (the console menu, reader selection, hex printing and
  messages), every `printf` diagnostic, and `PrintHexData`: console input
  and output.
- Concurrency and blocking: the code is single-threaded.
