/**
 * Nullable adapters: a bridge that lets a plain (non-nullable) host field receive a column
 * that may be NULL. The six Go adapters (NullString, NullInt64, NullInt32, NullFloat64,
 * NullBool, NullTime) differ only in their element type and are modelled by one generic class.
 */
module TypeAdaptors {
  import opened Wrappers
  import opened Values

  /** nullType: the adapter type accepted in place of a column kind, if any. */
  function NullType(k: Kind): Option<AdapterType>
  {
    match k
    case String => Some(NullString)
    case Int64 => Some(NullInt64)
    case Int32 => Some(NullInt32)
    case Float64 => Some(NullFloat64)
    case Bool => Some(NullBool)
    case Struct => Some(NullTime)
    case _ => None
  }

  /** The kind of the host field each adapter writes into (time.Time is a struct). */
  function ElementKind(a: AdapterType): Kind
  {
    match a
    case NullString => String
    case NullInt64 => Int64
    case NullInt32 => Int32
    case NullFloat64 => Float64
    case NullBool => Bool
    case NullTime => Struct
  }

  /**
   * nullType pairs each of the six kinds with exactly one adapter, the one that writes
   * that kind, and gives no adapter for any other kind.
   */
  lemma NullTypeMatchesElementKind(k: Kind, a: AdapterType)
    ensures NullType(k) == Some(a) <==> ElementKind(a) == k
    ensures NullType(ElementKind(a)) == Some(a)
    ensures NullType(k).None? <==> k !in {String, Int64, Int32, Float64, Bool, Struct}
  {
  }

  /** What the wrapped database/sql scanner reports: a value and its validity, or an error. */
  datatype DelegateScan<E> = Delegated(value: E, valid: bool) | DelegateFailed(cause: Error)

  /** One nullable adapter around a pointer to the caller's plain field. */
  class NullAdapter<E> {
    const adapter: AdapterType
    /** The caller's field (String, Int64, … in the Go structs). */
    const receiver: Cell<E>
    var valid: bool

    /** NewNullString and its five siblings: remember the field, start invalid. */
    constructor (adapter: AdapterType, receiver: Cell<E>)
      ensures this.adapter == adapter && this.receiver == receiver && !valid
    {
      this.adapter := adapter;
      this.receiver := receiver;
      valid := false;
    }

    /**
     * Scan: run the delegate; on failure report its error and change nothing; on success
     * copy its value into the caller's field (the zero value for NULL) and its validity flag.
     */
    method Scan(delegate: DelegateScan<E>) returns (err: Option<Error>)
      modifies this, receiver
      ensures delegate.DelegateFailed? ==>
        err == Some(delegate.cause) && receiver.value == old(receiver.value) && valid == old(valid)
      ensures delegate.Delegated? ==>
        err.None? && receiver.value == delegate.value && valid == delegate.valid
    {
      if delegate.DelegateFailed? {
        return Some(delegate.cause);
      }
      receiver.value := delegate.value;
      valid := delegate.valid;
      return None;
    }
  }
}
