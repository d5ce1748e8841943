/**
 * The values the query builder moves around, with Go's reflection replaced by explicit
 * descriptors: the kind of a type, the six nullable adapter types, bound parameter values
 * and the receivers (scan destinations) a caller hands to a table.
 */
module Values {

  /** Go's 64-bit signed integer, the type of LIMIT row counts and offsets. */
  newtype int64 = x: int | -0x8000_0000_0000_0000 <= x < 0x8000_0000_0000_0000

  /** The reflect.Kind values the library compares against. */
  datatype Kind = Bool | Int | Int32 | Int64 | Float64 | String | Struct | Slice | Ptr | Map | Interface

  /** The six nullable adapter struct types of type_adaptors.go. */
  datatype AdapterType = NullString | NullInt64 | NullInt32 | NullFloat64 | NullBool | NullTime

  /**
   * A Go type as far as the library can tell types apart: a plain type is known by its
   * kind only, while the adapter types are compared by identity. Every adapter is a struct.
   */
  datatype TypeDesc = Plain(kind: Kind) | Adapter(adapter: AdapterType)

  /** reflect.Type.Kind() */
  function KindOf(t: TypeDesc): Kind
  {
    match t
    case Plain(k) => k
    case Adapter(_) => Struct
  }

  /** The payload of a bound value; floats and times are opaque tokens. */
  datatype Datum = Num(n: int) | Text(s: string) | Flag(b: bool) | Opaque(token: nat)

  /**
   * A non-nil value stored in an interface{}: two values are equal exactly when their
   * dynamic types and payloads are equal, as with Go's == on interfaces.
   */
  datatype Value = Value(ty: TypeDesc, datum: Datum)

  /** A Go string held in an interface{}. */
  function StringValue(s: string): Value
  {
    Value(Plain(String), Text(s))
  }

  /**
   * A receiver handed to SetColumnReceiver or listed by an accumulator. `id` stands for
   * its address, `isPointer` for reflect.TypeOf(r).Kind() == reflect.Ptr, and `target` for
   * the type reflect.Indirect sees: the pointee for a pointer, the value's own type otherwise.
   */
  datatype Receiver = Receiver(id: nat, isPointer: bool, target: TypeDesc)

  /** reflect.TypeOf(r).Kind() for a receiver. */
  function OwnKind(r: Receiver): Kind
  {
    if r.isPointer then Ptr else KindOf(r.target)
  }

  /** What a column holds as its receiver: the receiver itself, or pq.Array(receiver). */
  datatype Bound = Raw(receiver: Receiver) | ArrayWrapped(receiver: Receiver)

  /** A Go error value, known by its message. */
  datatype Error = Error(message: string)

  /** A Go pointer *T: a mutable cell that several holders may share. */
  class Cell<T> {
    var value: T

    constructor (v: T)
      ensures value == v
    {
      value := v;
    }
  }
}
