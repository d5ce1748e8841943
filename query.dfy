/**
 * A built query and its execution against a driver: the driver runs the text with the
 * parameters, each row is scanned into the scan list and then accumulated, and the
 * result set is closed exactly once whenever the driver returned one.
 */
module Queries {
  import opened Wrappers
  import opened Values
  import opened Accumulators

  /** What scanning one row does: writes a value into the destinations, or fails. */
  datatype RowScan<T> = RowScanned(value: T) | RowFailed(cause: Error)

  /** The index of the first row whose scan fails, or the number of rows when none does. */
  function FirstFailure<T>(rows: seq<RowScan<T>>): (n: nat)
    ensures n <= |rows|
    ensures forall i :: 0 <= i < n ==> rows[i].RowScanned?
    ensures n < |rows| ==> rows[n].RowFailed?
  {
    if rows == [] || rows[0].RowFailed? then 0 else 1 + FirstFailure(rows[1..])
  }

  /** The values of a run of rows that all scan. */
  function ScannedValues<T>(rows: seq<RowScan<T>>): (vs: seq<T>)
    requires forall i :: 0 <= i < |rows| ==> rows[i].RowScanned?
    ensures |vs| == |rows| && forall i :: 0 <= i < |rows| ==> vs[i] == rows[i].value
  {
    if rows == [] then [] else ScannedValues(rows[..|rows| - 1]) + [rows[|rows| - 1].value]
  }

  /** k copies of x. */
  function Repeat<X>(x: X, k: nat): (r: seq<X>)
    ensures |r| == k && forall i :: 0 <= i < k ==> r[i] == x
  {
    if k == 0 then [] else Repeat(x, k - 1) + [x]
  }

  /** The closer a driver returns with its rows; counts its calls. */
  class Closer {
    var calls: nat

    constructor ()
      ensures calls == 0
    {
      calls := 0;
    }

    method Close()
      modifies this
      ensures calls == old(calls) + 1
    {
      calls := calls + 1;
    }
  }

  /**
   * tempRows: a cursor over a fixed sequence of rows. Every scan writes the row's value
   * into `dest`, the struct the destinations point into, and is logged with its targets.
   */
  class Rows<T> {
    const rows: seq<RowScan<T>>
    const dest: Cell<T>
    var pos: nat
    var scans: seq<seq<Bound>>

    ghost predicate Valid()
      reads this
    {
      pos <= |rows|
    }

    constructor (rows: seq<RowScan<T>>, dest: Cell<T>)
      ensures this.rows == rows && this.dest == dest
      ensures pos == 0 && scans == [] && Valid()
    {
      this.rows := rows;
      this.dest := dest;
      pos := 0;
      scans := [];
    }

    /** Moves to the next row; false once every row has been visited. */
    method Next() returns (more: bool)
      requires Valid()
      modifies this
      ensures Valid()
      ensures more == (old(pos) < |rows|)
      ensures pos == if more then old(pos) + 1 else old(pos)
      ensures scans == old(scans)
    {
      more := pos < |rows|;
      if more {
        pos := pos + 1;
      }
    }

    /** Scans the row Next moved to; before the first Next there is no row. */
    method Scan(targets: seq<Bound>) returns (err: Option<Error>)
      requires Valid()
      modifies this, dest
      ensures Valid() && pos == old(pos) && scans == old(scans) + [targets]
      ensures pos == 0 ==> err == Some(Error("sql: Scan called without calling Next")) && dest.value == old(dest.value)
      ensures pos > 0 && rows[pos - 1].RowScanned? ==> err.None? && dest.value == rows[pos - 1].value
      ensures pos > 0 && rows[pos - 1].RowFailed? ==> err == Some(rows[pos - 1].cause) && dest.value == old(dest.value)
    {
      scans := scans + [targets];
      if pos == 0 {
        return Some(Error("sql: Scan called without calling Next"));
      }
      match rows[pos - 1]
      case RowScanned(v) =>
        dest.value := v;
        err := None;
      case RowFailed(cause) =>
        err := Some(cause);
    }
  }

  /** One call the driver received. */
  datatype Request = Request(query: string, params: seq<Value>)

  /** tempDriver: answers every query with the same rows and closer, or the same failure. */
  class Driver<T> {
    const rows: Rows<T>
    const closer: Closer
    const failure: Option<Error>
    var requests: seq<Request>

    constructor (rows: Rows<T>, closer: Closer, failure: Option<Error>)
      ensures this.rows == rows && this.closer == closer && this.failure == failure && requests == []
    {
      this.rows := rows;
      this.closer := closer;
      this.failure := failure;
      requests := [];
    }

    method RunQuery(query: string, params: seq<Value>) returns (res: Rows<T>, close: Closer, err: Option<Error>)
      modifies this
      ensures requests == old(requests) + [Request(query, params)]
      ensures res == rows && close == closer && err == failure
    {
      requests := requests + [Request(query, params)];
      return rows, closer, failure;
    }
  }

  /** Run's errors: the driver's error joined with "failed to run query" or "failed to scan row". */
  datatype RunError = QueryFailed(cause: Error) | ScanFailed(cause: Error)

  class Query<T> {
    const scanList: seq<Bound>
    const query: string
    const params: seq<Value>
    const accumulator: Accumulator<T>

    constructor (query: string, scanList: seq<Bound>, params: seq<Value>, accumulator: Accumulator<T>)
      ensures this.query == query && this.scanList == scanList
      ensures this.params == params && this.accumulator == accumulator
    {
      this.query := query;
      this.scanList := scanList;
      this.params := params;
      this.accumulator := accumulator;
    }

    method GetScanList() returns (s: seq<Bound>)
      ensures s == scanList
    {
      return scanList;
    }

    method GetQuery() returns (s: string)
      ensures s == query
    {
      return query;
    }

    method GetParams() returns (ps: seq<Value>)
      ensures ps == params
    {
      return params;
    }

    /**
     * One pass of Run's loop: moves the cursor; if there was a row, scans it into the scan
     * list and, when the scan succeeds, accumulates it. `stop` says the loop ends here.
     */
    method ScanNext(res: Rows<T>) returns (stop: bool, err: Option<RunError>)
      requires res.Valid()
      modifies res, res.dest, accumulator
      ensures res.Valid()
      ensures old(res.pos) == |res.rows| ==>
        stop && err.None? && res.pos == old(res.pos) && res.scans == old(res.scans) &&
        accumulator.results == old(accumulator.results)
      ensures old(res.pos) < |res.rows| ==>
        var row := res.rows[old(res.pos)];
        res.pos == old(res.pos) + 1 && res.scans == old(res.scans) + [scanList] &&
        (row.RowFailed? ==>
           stop && err == Some(ScanFailed(row.cause)) && accumulator.results == old(accumulator.results)) &&
        (row.RowScanned? ==>
           !stop && err.None? && |accumulator.results| == |old(accumulator.results)| + 1 &&
           (res.dest == accumulator.receiver ==> accumulator.results == old(accumulator.results) + [row.value]))
    {
      var more := res.Next();
      if !more {
        return true, None;
      }
      var scanErr := res.Scan(scanList);
      if scanErr.Some? {
        return true, Some(ScanFailed(scanErr.value));
      }
      accumulator.Acc();
      return false, None;
    }

    /**
     * Run's loop over the cursor: from the cursor's position on, each row is scanned into
     * the scan list and, when the scan succeeds, accumulated; the first failing scan stops
     * the loop and is reported.
     */
    method ScanRows(res: Rows<T>) returns (err: Option<RunError>)
      requires res.Valid()
      modifies res, res.dest, accumulator
      ensures res.Valid()
      ensures var rest := res.rows[old(res.pos)..];
        var n := FirstFailure(rest);
        var visited := if n < |rest| then n + 1 else n;
        err == (if n < |rest| then Some(ScanFailed(rest[n].cause)) else None) &&
        res.pos == old(res.pos) + visited &&
        res.scans == old(res.scans) + Repeat(scanList, visited) &&
        |accumulator.results| == |old(accumulator.results)| + n &&
        (res.dest == accumulator.receiver ==>
           accumulator.results == old(accumulator.results) + ScannedValues(rest[..n]))
    {
      ghost var p0 := res.pos;
      ghost var rest := res.rows[p0..];
      ghost var n := FirstFailure(rest);
      ghost var i := 0;
      var stop := false;
      err := None;
      while !stop
        invariant res.Valid() && i <= n && p0 + i <= res.pos
        invariant !stop ==> err.None? && res.pos == p0 + i
        invariant stop ==>
          (err == (if n < |rest| then Some(ScanFailed(rest[n].cause)) else None) &&
           res.pos == p0 + (if n < |rest| then n + 1 else n) && i == n)
        invariant res.scans == old(res.scans) + Repeat(scanList, res.pos - p0)
        invariant |accumulator.results| == |old(accumulator.results)| + i
        invariant res.dest == accumulator.receiver ==>
          accumulator.results == old(accumulator.results) + ScannedValues(rest[..i])
        decreases |res.rows| - res.pos, !stop
      {
        ghost var before := res.pos;
        stop, err := ScanNext(res);
        if before < |res.rows| {
          assert Repeat(scanList, before - p0) + [scanList] == Repeat(scanList, before - p0 + 1);
          assert rest[i] == res.rows[before];
          if rest[i].RowScanned? {
            assert rest[..i + 1][..i] == rest[..i];
            i := i + 1;
          }
        }
      }
    }

    /**
     * Run: sends exactly the query text and parameters to the driver. If the driver fails,
     * nothing is scanned, accumulated or closed. Otherwise the rows are scanned as ScanRows
     * says and the closer is called exactly once.
     */
    method Run(driver: Driver<T>) returns (err: Option<RunError>)
      requires driver.rows.Valid()
      modifies driver, driver.rows, driver.rows.dest, driver.closer, accumulator
      ensures driver.rows.Valid()
      ensures driver.requests == old(driver.requests) + [Request(query, params)]
      ensures driver.failure.Some? ==>
        err == Some(QueryFailed(driver.failure.value)) &&
        driver.closer.calls == old(driver.closer.calls) &&
        driver.rows.pos == old(driver.rows.pos) && driver.rows.scans == old(driver.rows.scans) &&
        accumulator.results == old(accumulator.results)
      ensures driver.failure.None? ==>
        var rest := driver.rows.rows[old(driver.rows.pos)..];
        var n := FirstFailure(rest);
        var visited := if n < |rest| then n + 1 else n;
        driver.closer.calls == old(driver.closer.calls) + 1 &&
        err == (if n < |rest| then Some(ScanFailed(rest[n].cause)) else None) &&
        driver.rows.pos == old(driver.rows.pos) + visited &&
        driver.rows.scans == old(driver.rows.scans) + Repeat(scanList, visited) &&
        |accumulator.results| == |old(accumulator.results)| + n &&
        (driver.rows.dest == accumulator.receiver ==>
           accumulator.results == old(accumulator.results) + ScannedValues(rest[..n]))
    {
      var res, closer, e := driver.RunQuery(query, params);
      if e.Some? {
        return Some(QueryFailed(e.value));
      }
      err := ScanRows(res);
      closer.Close();
    }
  }
}
