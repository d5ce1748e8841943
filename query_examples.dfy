/** Running a built query against a driver whose rows are known. */
module QueryExamples {
  import opened Wrappers
  import opened Values
  import opened Accumulators
  import opened Queries
  import opened TypeAdaptors

  datatype Person = Person(name: string, stars: int)

  function SomeRows(): seq<RowScan<Person>>
  {
    [RowScanned(Person("doom", 64)), RowScanned(Person("moon", 32)), RowFailed(Error("bad row")),
     RowScanned(Person("late", 1))]
  }

  lemma SomeRowsFailAtTwo()
    ensures FirstFailure(SomeRows()) == 2
    ensures ScannedValues(SomeRows()[..2]) == [Person("doom", 64), Person("moon", 32)]
  {
    assert SomeRows()[2].RowFailed?;
  }

  /**
   * The scans write into the accumulator's receiver: the two rows before the failing one are
   * accumulated, the row after it is never read, the error is reported, and the rows are
   * closed once.
   */
  method ScanStopsAtFirstFailure() returns (err: Option<RunError>, results: seq<Person>, closes: nat, requests: seq<Request>)
    ensures err == Some(ScanFailed(Error("bad row")))
    ensures results == [Person("doom", 64), Person("moon", 32)]
    ensures closes == 1 && requests == [Request("SELECT cool FROM exampleTable", [])]
  {
    var acc := new Accumulator(Person("", 0), (c: Cell<Person>) => map[]);
    var rows := new Rows(SomeRows(), acc.receiver);
    var closer := new Closer();
    var driver := new Driver(rows, closer, None);
    var q := new Query("SELECT cool FROM exampleTable", [Raw(Receiver(1, true, Plain(String)))], [], acc);
    SomeRowsFailAtTwo();
    assert rows.rows[0..] == SomeRows();
    err := q.Run(driver);
    results := acc.results;
    closes := closer.calls;
    requests := driver.requests;
  }

  /** When the driver fails nothing is scanned, accumulated or closed. */
  method FailedQueryClosesNothing() returns (err: Option<RunError>, results: seq<Person>, closes: nat)
    ensures err == Some(QueryFailed(Error("connection refused")))
    ensures results == [] && closes == 0
  {
    var acc := new Accumulator(Person("", 0), (c: Cell<Person>) => map[]);
    var rows := new Rows(SomeRows(), acc.receiver);
    var closer := new Closer();
    var driver := new Driver(rows, closer, Some(Error("connection refused")));
    var q := new Query("SELECT cool FROM exampleTable", [], [], acc);
    err := q.Run(driver);
    results := acc.results;
    closes := closer.calls;
  }

  /** Writing through the receiver and accumulating records a copy of the receiver's value. */
  method AccumulatesResults() returns (results: seq<Person>)
    ensures results == [Person("doom", 64)]
  {
    var acc := new Accumulator(Person("", 0), (c: Cell<Person>) => map[]);
    acc.receiver.value := Person("doom", 64);
    acc.Acc();
    acc.receiver.value := Person("", 0);
    results := acc.GetResults();
  }

  /** A NULL column leaves the zero value in the caller's field and marks the adapter invalid. */
  method NullColumnScan() returns (name: string, valid: bool, err: Option<Error>)
    ensures name == "" && !valid && err.None?
  {
    var field := new Cell("stale");
    var adapter := new NullAdapter(NullString, field);
    err := adapter.Scan(Delegated("", false));
    name := field.value;
    valid := adapter.valid;
  }
}
