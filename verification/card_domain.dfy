/**
 * The core layer of the card client: the result codes every layer returns, the
 * owned byte buffer that carries commands and responses, the opaque context
 * handle, and the repository port that a transport adapter implements.
 */
module CardDomain {
  import opened Wrappers

  /** An unsigned 8-bit value (`uint8_t`, `BYTE`). */
  newtype byte = x: int | 0 <= x < 256

  /** The character that ends a C string. */
  const NUL: char := 0 as char

  /** The conversion `(uint8_t)n`: keeps the low eight bits of a length. */
  function LowByte(n: nat): byte
  {
    (n % 256) as byte
  }

  function Min(a: nat, b: nat): nat
  {
    if a < b then a else b
  }

  // ---------------------------------------------------------------------------
  // Result codes (enum CardError)
  // ---------------------------------------------------------------------------

  /** The closed set of result codes shared by every layer. */
  datatype CardError =
    | Success
    | InitFailed
    | ConnectFailed
    | TransmitFailed
    | InvalidParameter
    | MemoryAllocation
  {
    /** The integer value the C enumeration gives this code. */
    function Code(): int
    {
      match this
      case Success => 0
      case InitFailed => -1
      case ConnectFailed => -2
      case TransmitFailed => -3
      case InvalidParameter => -4
      case MemoryAllocation => -5
    }
  }

  /** Reads an integer back as a result code; None for integers outside the enumeration. */
  function FromCode(code: int): (e: Option<CardError>)
    ensures e.Some? <==> -5 <= code <= 0
    ensures e.Some? ==> e.value.Code() == code
  {
    if code == 0 then Some(Success)
    else if code == -1 then Some(InitFailed)
    else if code == -2 then Some(ConnectFailed)
    else if code == -3 then Some(TransmitFailed)
    else if code == -4 then Some(InvalidParameter)
    else if code == -5 then Some(MemoryAllocation)
    else None
  }

  /** Every code reads back as itself, so no two codes share a value. */
  lemma CodeRoundTrip(e: CardError)
    ensures FromCode(e.Code()) == Some(e)
  {
  }

  lemma CodesDistinct(a: CardError, b: CardError)
    ensures a.Code() == b.Code() <==> a == b
  {
    CodeRoundTrip(a);
    CodeRoundTrip(b);
  }

  /** Success is the only non-negative code; the failures are -1 to -5. */
  lemma OnlySuccessIsNonNegative(e: CardError)
    ensures e.Code() >= 0 <==> e == Success
    ensures e != Success ==> -5 <= e.Code() <= -1
  {
  }

  // ---------------------------------------------------------------------------
  // Card buffers (struct CardData)
  // ---------------------------------------------------------------------------

  /**
   * A buffer as a value: its storage contents (None for a NULL pointer) and its
   * recorded length. No capacity is recorded: the length is what every "does it
   * fit" decision compares against.
   */
  datatype BufferState = BufferState(storage: Option<seq<byte>>, length: nat)
  {
    /** The recorded length does not exceed the storage. */
    predicate Fits()
    {
      storage.Some? ==> length <= |storage.value|
    }

    /** The bytes a reader of the buffer sees: the first `length` bytes of the storage. */
    function Bytes(): seq<byte>
      requires Fits() && storage.Some?
    {
      storage.value[..length]
    }
  }

  /** What card_data_copy returns and leaves in its destination. */
  datatype CopyOutcome = CopyOutcome(code: CardError, dest: BufferState)

  /** True when card_data_copy keeps the destination's storage instead of reallocating. */
  predicate Reuses(dest: BufferState, srcLength: nat)
  {
    dest.storage.Some? && dest.length >= srcLength
  }

  /**
   * card_data_copy on values, for a non-NULL destination and source: the storage is
   * reused when present and long enough by the recorded length (the length is then
   * kept), otherwise replaced by fresh storage of exactly the source's length.
   */
  function CopySpec(dest: BufferState, src: seq<byte>, allocOk: bool): CopyOutcome
    requires dest.Fits()
  {
    if Reuses(dest, |src|) then
      CopyOutcome(Success, BufferState(Some(src + dest.storage.value[|src|..]), dest.length))
    else if !allocOk then
      CopyOutcome(MemoryAllocation, BufferState(None, 0))
    else
      CopyOutcome(Success, BufferState(Some(src), |src|))
  }

  /** A successful copy leaves the source's bytes at the start of the destination; a failed one an empty destination. */
  lemma CopyDeliversSource(dest: BufferState, src: seq<byte>, allocOk: bool)
    requires dest.Fits()
    ensures var o := CopySpec(dest, src, allocOk);
      && o.dest.Fits()
      && (o.code == Success ==> o.dest.storage.Some? && |src| <= o.dest.length && o.dest.storage.value[..|src|] == src)
      && (o.code != Success ==> o.code == MemoryAllocation && !Reuses(dest, |src|) && !allocOk && o.dest == BufferState(None, 0))
  {
    var o := CopySpec(dest, src, allocOk);
    if Reuses(dest, |src|) {
      assert o.dest.storage.value[..|src|] == src;
    }
  }

  /**
   * The stale-length quirk: copying into a longer buffer keeps its old length, so
   * the buffer then reads back as the source followed by its own old tail.
   */
  lemma CopyKeepsStaleLength(dest: BufferState, src: seq<byte>, allocOk: bool)
    requires dest.Fits() && dest.storage.Some? && dest.length > |src|
    ensures var o := CopySpec(dest, src, allocOk);
      && o.code == Success
      && o.dest.length == dest.length != |src|
      && o.dest.Bytes() == src + dest.Bytes()[|src|..]
  {
    var o := CopySpec(dest, src, allocOk);
    assert o.dest.Bytes() == (src + dest.storage.value[|src|..])[..dest.length];
  }

  /** Copying the same source again after a successful copy changes nothing and needs no memory. */
  lemma CopyIdempotent(dest: BufferState, src: seq<byte>, allocOk: bool, allocOkAgain: bool)
    requires dest.Fits()
    requires CopySpec(dest, src, allocOk).code == Success
    ensures var o := CopySpec(dest, src, allocOk);
      o.dest.Fits() && CopySpec(o.dest, src, allocOkAgain) == o
  {
    var o := CopySpec(dest, src, allocOk);
    CopyDeliversSource(dest, src, allocOk);
    assert Reuses(o.dest, |src|);
    var s := o.dest.storage.value;
    assert src + s[|src|..] == s by {
      assert s == s[..|src|] + s[|src|..];
    }
  }

  /** A byte pointer with the length that goes with it. */
  class CardData {
    var data: array?<byte>
    var length: nat
    /** Set once card_data_free has released the struct: it must not be used again. */
    ghost var released: bool

    ghost predicate Valid()
      reads this
    {
      !released && (data != null ==> length <= data.Length)
    }

    ghost function State(): BufferState
      reads this, data
    {
      BufferState(if data == null then None else Some(data[..]), length)
    }

    ghost function Bytes(): seq<byte>
      reads this, data
      requires Valid() && data != null
    {
      data[..length]
    }

    /** The struct literal `{ data, length }` over storage the caller already owns. */
    constructor Wrap(data: array?<byte>, length: nat)
      requires data != null ==> length <= data.Length
      ensures Valid() && this.data == data && this.length == length
    {
      this.data := data;
      this.length := length;
      released := false;
    }

    /**
     * card_data_create: NULL for a zero length or when either allocation fails
     * (the struct is released when only the storage fails); otherwise a buffer of
     * exactly `length` zero bytes.
     */
    static method Create(length: nat, structAlloc: bool, storageAlloc: bool) returns (d: CardData?)
      ensures d == null <==> length == 0 || !structAlloc || !storageAlloc
      ensures d != null ==> fresh(d) && fresh(d.data) && d.Valid() && d.data != null
      ensures d != null ==> d.length == length && d.data.Length == length
      ensures d != null ==> forall i | 0 <= i < length :: d.data[i] == 0
    {
      if length == 0 {
        return null;
      }
      if !structAlloc {
        return null;
      }
      d := new CardData.Wrap(null, 0);
      if !storageAlloc {
        d.released := true;
        return null;
      }
      var storage := new byte[length];
      d.data := storage;
      d.length := length;
      forall i | 0 <= i < length {
        storage[i] := 0;
      }
    }

    /**
     * card_data_free: NULL is ignored; otherwise the storage pointer is cleared and
     * the struct released. Releasing it a second time is not allowed.
     */
    static method Free(d: CardData?)
      requires d != null ==> !d.released
      modifies d
      ensures d != null ==> d.released && d.data == null && d.length == old(d.length)
    {
      if d == null {
        return;
      }
      if d.data != null {
        d.data := null;
      }
      d.released := true;
    }

    /**
     * card_data_copy: INVALID_PARAMETER and no change for a NULL destination, source
     * or source storage; otherwise the result and new destination of CopySpec, with
     * the same storage object on reuse and a fresh one on reallocation.
     */
    static method Copy(dest: CardData?, src: CardData?, allocOk: bool) returns (r: CardError)
      requires dest != null ==> dest.Valid()
      requires src != null ==> src.Valid()
      modifies dest, if dest != null then {dest.data} else {}
      ensures dest == null || src == null || old(src.data) == null ==>
        r == InvalidParameter && (dest != null ==> dest.data == old(dest.data) && dest.State() == old(dest.State()) && dest.Valid())
      ensures dest != null && src != null && old(src.data) != null ==>
        var o := CopySpec(old(dest.State()), old(src.Bytes()), allocOk);
        && r == o.code
        && dest.State() == o.dest
        && dest.Valid()
        && (Reuses(old(dest.State()), old(src.length)) ==> dest.data == old(dest.data))
        && (!Reuses(old(dest.State()), old(src.length)) && allocOk ==> fresh(dest.data))
    {
      if dest == null || src == null || src.data == null {
        return InvalidParameter;
      }
      ghost var before := dest.State();
      ghost var source := src.Bytes();
      var n := src.length;
      var from := src.data;
      if dest.data == null || dest.length < n {
        // The old storage, if any, is released here.
        if !allocOk {
          dest.data := null;
          dest.length := 0;
          return MemoryAllocation;
        }
        dest.data := new byte[n];
        dest.length := n;
      }
      var to := dest.data;
      forall i | 0 <= i < n {
        to[i] := from[i];
      }
      r := Success;
      assert to[..n] == source;
      if Reuses(before, n) {
        assert to[..] == source + before.storage.value[n..] by {
          assert to[..] == to[..n] + to[n..];
        }
      } else {
        assert to[..] == to[..n];
      }
    }
  }

  /** The storage after a transfer writes `incoming` at its start, stopping after `limit` elements or at the end of the storage. */
  function Overwrite<T>(storage: seq<T>, incoming: seq<T>, limit: nat): (r: seq<T>)
    ensures |r| == |storage|
    ensures forall i | 0 <= i < |r| :: r[i] == (if i < |incoming| && i < limit then incoming[i] else storage[i])
  {
    var k := Min(Min(|incoming|, limit), |storage|);
    incoming[..k] + storage[k..]
  }

  // ---------------------------------------------------------------------------
  // The context handle and the repository port
  // ---------------------------------------------------------------------------

  /** The opaque handle the layers pass around; only the adapter looks inside. */
  class CardContext {
    var context: object?

    constructor (context: object?)
      ensures this.context == context
    {
      this.context := context;
    }
  }

  /**
   * What a port's transmit reports: its result code, the bytes it writes at the
   * start of the response storage, and the value it leaves in the in/out length
   * argument (on entry the capacity offered).
   */
  datatype TransmitReply = TransmitReply(code: CardError, received: seq<byte>, length: nat)

  /** What a port's list_readers reports: its result code and the reader names in order. */
  datatype ReaderListing = ReaderListing(code: CardError, readers: seq<string>)

  /**
   * The repository port: the six operations a transport adapter supplies, each
   * taking the shared context. `transmit` takes the command bytes and the
   * response capacity.
   */
  datatype CardRepository = CardRepository(
    initialize: CardContext -> CardError,
    listReaders: CardContext -> ReaderListing,
    connect: (CardContext, string) -> CardError,
    disconnect: CardContext -> CardError,
    release: CardContext -> CardError,
    transmit: (CardContext, seq<byte>, nat) -> TransmitReply)
}
