/**
 * The generic accumulator: one receiver value that row scans write into, the column to
 * receiver map that points into it, and the results collected so far.
 */
module Accumulators {
  import opened Values

  class Accumulator<T> {
    const columnReceiverMap: map<string, Receiver>
    /** The receiver struct, a *T shared with the scan destinations. */
    const receiver: Cell<T>
    var results: seq<T>

    /**
     * NewAccumulator: allocates a fresh receiver holding T's zero value and asks the
     * caller's function for the receivers of its fields.
     */
    constructor (zero: T, receiverMapOf: Cell<T> -> map<string, Receiver>)
      ensures fresh(receiver) && receiver.value == zero
      ensures columnReceiverMap == receiverMapOf(receiver) && results == []
    {
      var r := new Cell(zero);
      receiver := r;
      columnReceiverMap := receiverMapOf(r);
      results := [];
    }

    /** Acc: appends a copy of the receiver's current value. */
    method Acc()
      modifies this
      ensures results == old(results) + [receiver.value]
    {
      results := results + [receiver.value];
    }

    method GetColumnReceiverMap() returns (m: map<string, Receiver>)
      ensures m == columnReceiverMap
    {
      return columnReceiverMap;
    }

    method GetResults() returns (rs: seq<T>)
      ensures rs == results
    {
      return results;
    }
  }
}
