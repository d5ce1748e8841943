/** A column: the kind its receiver must have, and the receiver bound to it, if any. */
module Columns {
  import opened Wrappers
  import opened Values

  class Column {
    /** Set once by the constructor: a column's kind never changes. */
    const kind: Kind
    var receiver: Option<Bound>

    /** NewColumn: the given kind and no receiver. */
    constructor (columnKind: Kind)
      ensures kind == columnKind && receiver.None?
    {
      kind := columnKind;
      receiver := None;
    }

    /** Rebinds the receiver; the result does not depend on what was bound before. */
    method SetReceiver(v: Bound)
      modifies this
      ensures receiver == Some(v)
    {
      receiver := Some(v);
    }
  }
}
