/**
 * The repository's own test scenarios, stated over the model: the example model struct,
 * the example accumulator's receiver map, and the queries built from them.
 */
module TableExamples {
  import opened Wrappers
  import opened Values
  import opened Text
  import opened Dialects
  import opened Params
  import opened Clauses
  import opened ClauseFacts
  import opened ClauseExamples
  import opened Accumulators
  import opened Queries
  import opened Sorting
  import opened Tables
  import opened TableFacts

  /** The example model's fields, tagged for PostgreSQL. */
  function ExampleFields(): seq<Field>
  {
    [Field(String, map["psql" := "cool"]),
     Field(Struct, map["psql" := "created_time"]),
     Field(Int32, map["psql" := "number_of_food"]),
     Field(Int64, map["psql" := "number_of_star"]),
     Field(Float64, map["psql" := "radius_of_moon"]),
     Field(Bool, map["psql" := "is_true_true"]),
     Field(Slice, map["psql" := "loves"])]
  }

  function ExampleKinds(): map<string, Kind>
  {
    map["cool" := String, "created_time" := Struct, "number_of_food" := Int32,
        "number_of_star" := Int64, "radius_of_moon" := Float64, "is_true_true" := Bool,
        "loves" := Slice]
  }

  /** The first four fields of the example model name their own columns. */
  lemma ExampleColumnsFront()
    ensures ColumnKinds(ExampleFields()[..4], "psql") ==
      map["cool" := String, "created_time" := Struct, "number_of_food" := Int32, "number_of_star" := Int64]
  {
    var fs := ExampleFields()[..4];
    var key := "psql";
    assert fs[..1][..0] == [];
    assert ColumnKinds(fs[..1], key) == map["cool" := String];
    assert fs[..2][..1] == fs[..1];
    assert ColumnKinds(fs[..2], key) == map["cool" := String, "created_time" := Struct];
    assert fs[..3][..2] == fs[..2];
    assert ColumnKinds(fs[..3], key) == map["cool" := String, "created_time" := Struct, "number_of_food" := Int32];
    assert fs[..4] == fs;
  }

  /** Each field of the example model names its own column, of the field's kind. */
  lemma ExampleColumns()
    ensures ColumnKinds(ExampleFields(), "psql") == ExampleKinds()
  {
    var fs := ExampleFields();
    var key := "psql";
    ExampleColumnsFront();
    assert fs[..5][..4] == fs[..4];
    assert ColumnKinds(fs[..5], key) == map["cool" := String, "created_time" := Struct, "number_of_food" := Int32,
                                            "number_of_star" := Int64, "radius_of_moon" := Float64];
    assert fs[..6][..5] == fs[..5];
    assert ColumnKinds(fs[..6], key) == map["cool" := String, "created_time" := Struct, "number_of_food" := Int32,
                                            "number_of_star" := Int64, "radius_of_moon" := Float64, "is_true_true" := Bool];
    assert fs[..7][..6] == fs[..6];
    assert fs[..7] == fs;
  }

  // The example result's receivers; the numbers stand for their addresses.
  const NameReceiver := Receiver(1, true, Plain(String))
  const CreatedReceiver := Receiver(2, true, Plain(Struct))
  const FoodsAdapter := Receiver(3, true, Adapter(NullInt32))
  const StarsAdapter := Receiver(4, true, Adapter(NullInt64))
  const MoonAdapter := Receiver(5, true, Adapter(NullFloat64))
  const TrueAdapter := Receiver(6, true, Adapter(NullBool))
  const LovesReceiver := Receiver(7, true, Plain(Slice))

  /** The example accumulator's receiver map: plain pointers and nullable adapters. */
  function ExampleReceiverMap(): map<string, Receiver>
  {
    map["cool" := NameReceiver, "created_time" := CreatedReceiver, "number_of_food" := FoodsAdapter,
        "number_of_star" := StarsAdapter, "radius_of_moon" := MoonAdapter, "is_true_true" := TrueAdapter,
        "loves" := LovesReceiver]
  }

  /** The example map loads without a problem; the slice is bound through the array wrapper. */
  lemma ExampleReceiverMapLoads()
    ensures Problems(ExampleKinds(), ExampleReceiverMap()) == map[]
    ensures EntryBinding(ExampleKinds(), "loves", LovesReceiver) == Some(ArrayWrapped(LovesReceiver))
    ensures EntryBinding(ExampleKinds(), "number_of_food", FoodsAdapter) == Some(Raw(FoodsAdapter))
  {
    var rm := ExampleReceiverMap();
    forall c | c in rm
      ensures EntryProblem(ExampleKinds(), c, rm[c]).None?
    {
    }
  }

  /** The bad receiver maps of the tests, each reported under its column: an unknown column, */
  lemma UnknownColumnProblem()
    ensures Problems(ExampleKinds(), map["non_existent_column" := Receiver(8, true, Plain(Struct))]) ==
      map["non_existent_column" := NotIncluded]
  {
  }

  /** a receiver that is not a pointer, */
  lemma NotPointerProblem()
    ensures Problems(ExampleKinds(), map["created_time" := Receiver(9, false, Plain(Struct))]) ==
      map["created_time" := NotReference]
  {
  }

  /** and a receiver of the wrong type. */
  lemma WrongTypeProblem()
    ensures Problems(ExampleKinds(), map["cool" := Receiver(10, true, Plain(Struct))]) ==
      map["cool" := InvalidType(Ptr, String)]
  {
  }

  /** The three rejected receivers of the SetColumnReceiver tests. */
  lemma SetColumnReceiverRejections()
    ensures ReceiverCheck(ExampleKinds(), "created_tim", Receiver(8, true, Plain(Struct))) == Fail(ColumnNotInTable("created_tim"))
    ensures ReceiverCheck(ExampleKinds(), "created_time", Receiver(9, false, Plain(Struct))) == Fail(ReceiverNotPointer)
    ensures ReceiverCheck(ExampleKinds(), "cool", Receiver(10, true, Plain(Struct))) == Fail(ReceiverTypeMismatch(Ptr, String))
  {
  }

  /** No column of the example table has a receiver. */
  function Unbound(): map<string, Option<Bound>>
  {
    map c | c in ExampleKinds() :: None
  }

  /** The receivers of the example table after binding Name and Created. */
  function NameAndCreatedBound(): map<string, Option<Bound>>
  {
    Unbound()["cool" := Some(Raw(NameReceiver))]["created_time" := Some(Raw(CreatedReceiver))]
  }

  /** The receivers of the example table after binding Name and Loves. */
  function NameAndLovesBound(): map<string, Option<Bound>>
  {
    Unbound()["cool" := Some(Raw(NameReceiver))]["loves" := Some(Raw(LovesReceiver))]
  }

  /** The filter of ColumnNull("cool") on a fresh table. */
  function CoolIsNull(): CompoundClause
  {
    AddClause(NewCompoundClause("AND"), Filter(NewPrimitiveFilterClause("cool", "IS", "NULL", None)))
  }

  /** A fresh table over the example model. */
  method ExampleTable() returns (t: Table)
    ensures fresh(t) && fresh(t.fields.Values) && t.Valid() && t.tableName == "exampleTable"
    ensures t.Kinds() == ExampleKinds() && t.Receivers() == Unbound()
    ensures t.filter == NewCompoundClause("AND") && t.orderBy == NewCompoundClause(",") && t.limit.None?
  {
    ExampleColumns();
    var r := Table.NewTable("exampleTable", Psql, Model(true, Struct, ExampleFields()));
    t := r.value;
  }

  /** A model that is a pointer to a string, or a struct that is not a pointer, is refused. */
  method NewTableRejections() returns (a: Result<Table, Fatal>, b: Result<Table, Fatal>)
    ensures a == Failure(ModelNotStructPointer) && b == Failure(ModelNotStructPointer)
  {
    a := Table.NewTable("example", Psql, Model(true, String, []));
    b := Table.NewTable("example", Psql, Model(false, Struct, ExampleFields()));
  }

  datatype ExampleResult = ExampleResult(name: string, numFoods: int)

  method ExampleAccumulator() returns (a: Accumulator<ExampleResult>)
    ensures fresh(a) && a.columnReceiverMap == ExampleReceiverMap() && a.results == []
  {
    a := new Accumulator(ExampleResult("", 0), (c: Cell<ExampleResult>) => ExampleReceiverMap());
  }

  /** Building a table whose only receivers are those of x and y, with x before y. */
  method BuildTwoBound(t: Table, acc: Accumulator<ExampleResult>, x: string, y: string)
    returns (q: Query<ExampleResult>, ghost selected: seq<string>)
    requires t.Valid() && LexLess(x, y)
    requires forall c :: c in t.Receivers() && t.Receivers()[c].Some? <==> c == x || c == y
    ensures selected == [x, y]
    ensures Rendered(q.query, q.params) == Statement(Psql, t.tableName, selected, t.filter, t.orderBy, t.limit)
    ensures q.scanList == [t.Receivers()[x].value, t.Receivers()[y].value]
  {
    q, selected := t.Build(acc, Psql);
    assert forall c :: c in selected <==> c == x || c == y by {
      forall c
        ensures c in selected <==> c == x || c == y
      {
        assert c in t.fields <==> c in t.Receivers();
        assert c in t.fields ==> t.Receivers()[c] == t.fields[c].receiver;
      }
    }
    TwoNamesSorted(selected, x, y);
    assert t.fields[x].receiver == t.Receivers()[x];
    assert t.fields[y].receiver == t.Receivers()[y];
  }

  lemma TwoBoundNames()
    ensures forall c :: c in NameAndCreatedBound() && NameAndCreatedBound()[c].Some? <==> c == "cool" || c == "created_time"
    ensures forall c :: c in NameAndLovesBound() && NameAndLovesBound()[c].Some? <==> c == "cool" || c == "loves"
    ensures LexLess("cool", "created_time") && LexLess("cool", "loves")
  {
  }

  /** The selected names of the two example queries, joined by ", ". */
  lemma JoinedNames()
    ensures Join(["cool", "created_time"], ", ") == "cool, created_time"
    ensures Join(["cool", "loves"], ", ") == "cool, loves"
  {
    JoinTwo("cool", "created_time", ", ");
    JoinTwo("cool", "loves", ", ");
  }

  /** The statement of the simple select: "SELECT cool, created_time FROM exampleTable". */
  lemma SimpleSelectText(selected: seq<string>)
    requires selected == ["cool", "created_time"]
    ensures Statement(Psql, "exampleTable", selected, NewCompoundClause("AND"), NewCompoundClause(","), None) ==
      Rendered("SELECT " + "cool, created_time" + " FROM " + "exampleTable", [])
  {
    StatementWithoutClauses(Psql, "exampleTable", selected, None);
    JoinedNames();
  }

  /** The receivers the example scenarios bind pass SetColumnReceiver's checks. */
  lemma ExampleReceiversAccepted()
    ensures ReceiverCheck(ExampleKinds(), "cool", NameReceiver) == Pass
    ensures ReceiverCheck(ExampleKinds(), "created_time", CreatedReceiver) == Pass
    ensures ReceiverCheck(ExampleKinds(), "loves", LovesReceiver) == Pass
  {
  }

  /** Binds two accepted receivers, x's first; nothing else of the table changes. */
  method BindTwo(t: Table, x: string, rx: Receiver, y: string, ry: Receiver)
    requires t.Valid() && ReceiverCheck(t.Kinds(), x, rx) == Pass && ReceiverCheck(t.Kinds(), y, ry) == Pass
    modifies t.fields.Values
    ensures t.Valid() && t.Receivers() == old(t.Receivers())[x := Some(Raw(rx))][y := Some(Raw(ry))]
    ensures t.filter == old(t.filter) && t.orderBy == old(t.orderBy) && t.limit == old(t.limit)
  {
    var ok1 := t.SetColumnReceiver(x, rx);
    var ok2 := t.SetColumnReceiver(y, ry);
  }

  /** The example table with receivers bound for Name and Created. */
  method NameAndCreatedTable() returns (t: Table)
    ensures t.Valid() && t.tableName == "exampleTable" && t.Receivers() == NameAndCreatedBound()
    ensures t.filter == NewCompoundClause("AND") && t.orderBy == NewCompoundClause(",") && t.limit.None?
  {
    t := ExampleTable();
    ExampleReceiversAccepted();
    BindTwo(t, "cool", NameReceiver, "created_time", CreatedReceiver);
  }

  /** Two receivers, no clauses: the columns in sorted order, the receivers in that order. */
  method SimpleSelect() returns (text: string, scanList: seq<Bound>, params: seq<Value>)
    ensures text == "SELECT " + "cool, created_time" + " FROM " + "exampleTable"
    ensures scanList == [Raw(NameReceiver), Raw(CreatedReceiver)] && params == []
  {
    var t := NameAndCreatedTable();
    var acc := ExampleAccumulator();
    TwoBoundNames();
    ghost var selected;
    var q;
    q, selected := BuildTwoBound(t, acc, "cool", "created_time");
    SimpleSelectText(selected);
    text := q.query;
    scanList := q.scanList;
    params := q.params;
  }

  lemma CoolIsNullText()
    ensures RenderCompound(Psql, CoolIsNull(), []) == Rendered("cool IS NULL", [])
  {
    var f := NewPrimitiveFilterClause("cool", "IS", "NULL", None);
    assert f.template == "cool IS NULL" by {
      assert ["cool", "IS", "NULL"][..2] == ["cool", "IS"];
      assert ["cool", "IS"][..1] == ["cool"];
    }
    CompoundShape(Psql, CoolIsNull(), []);
    NullFilterRender(Psql, f, []);
  }

  /** The statement of the select with an IS NULL filter: "SELECT cool, loves FROM exampleTable WHERE cool IS NULL". */
  lemma NullFilterSelectText(selected: seq<string>)
    requires selected == ["cool", "loves"]
    ensures Statement(Psql, "exampleTable", selected, CoolIsNull(), NewCompoundClause(","), None) ==
      Rendered("SELECT " + "cool, loves" + " FROM " + "exampleTable" + (" WHERE " + "cool IS NULL"), [])
  {
    CoolIsNullText();
    UnboundFilterStatement(Psql, "exampleTable", selected, CoolIsNull(), "cool IS NULL");
    JoinedNames();
  }

  /** The example table with receivers bound for Name and Loves. */
  method NameAndLovesTable() returns (t: Table)
    ensures fresh(t) && t.Valid() && t.tableName == "exampleTable" && t.Receivers() == NameAndLovesBound()
    ensures t.Kinds() == ExampleKinds()
    ensures t.filter == NewCompoundClause("AND") && t.orderBy == NewCompoundClause(",") && t.limit.None?
  {
    t := ExampleTable();
    ExampleReceiversAccepted();
    BindTwo(t, "cool", NameReceiver, "loves", LovesReceiver);
  }

  /** The example table with Name and Loves bound and the filter "cool IS NULL". */
  method CoolIsNullTable() returns (t: Table)
    ensures t.Valid() && t.tableName == "exampleTable" && t.Receivers() == NameAndLovesBound()
    ensures t.filter == CoolIsNull() && t.orderBy == NewCompoundClause(",") && t.limit.None?
  {
    t := NameAndLovesTable();
    assert "cool" in ExampleKinds();
    var ok := t.ColumnNull("cool");
  }

  /** Two receivers (one a slice, bound as it is) and a null filter. */
  method NullFilterSelect() returns (text: string, scanList: seq<Bound>, params: seq<Value>)
    ensures text == "SELECT " + "cool, loves" + " FROM " + "exampleTable" + (" WHERE " + "cool IS NULL")
    ensures scanList == [Raw(NameReceiver), Raw(LovesReceiver)] && params == []
  {
    var t := CoolIsNullTable();
    var acc := ExampleAccumulator();
    TwoBoundNames();
    ghost var selected;
    var q;
    q, selected := BuildTwoBound(t, acc, "cool", "loves");
    NullFilterSelectText(selected);
    text := q.query;
    scanList := q.scanList;
    params := q.params;
  }

  /** The filter of ColumnEquals("cool", "don't care") on a fresh table. */
  function CoolEquals(): CompoundClause
  {
    AddClause(NewCompoundClause("AND"), Filter(NewPrimitiveFilterClause("cool", "=", "%s", Some(StringValue("don't care")))))
  }

  lemma CoolEqualsText()
    ensures RenderCompound(Psql, CoolEquals(), []) == Rendered("cool = $1", [StringValue("don't care")])
  {
    EqualsFilterText(Psql, "cool", StringValue("don't care"));
    assert "cool" + " = $1" == "cool = $1";
  }

  /** ColumnEquals("cool", "don't care") renders "cool = $1" and binds the string. */
  method EqualsFilter() returns (text: string, params: seq<Value>)
    ensures text == "cool = $1" && params == [StringValue("don't care")]
  {
    var t := ExampleTable();
    var ok := t.ColumnEquals("cool", StringValue("don't care"));
    assert t.filter == CoolEquals();
    CoolEqualsText();
    var paramList := new ParamList(Psql);
    text := t.BuildFilter(paramList);
    params := paramList.GetParamList();
  }

  /** ColumnNull("cool") renders "cool IS NULL" and binds nothing. */
  method IsNullFilter() returns (text: string, params: seq<Value>)
    ensures text == "cool IS NULL" && params == []
  {
    var t := ExampleTable();
    var ok := t.ColumnNull("cool");
    assert t.filter == CoolIsNull();
    CoolIsNullText();
    var paramList := new ParamList(Psql);
    text := t.BuildFilter(paramList);
    params := paramList.GetParamList();
  }

  /** Building a table without receivers selects no column. */
  method BuildNoneBound(t: Table, acc: Accumulator<ExampleResult>) returns (q: Query<ExampleResult>)
    requires t.Valid() && forall c :: c in t.Receivers() ==> t.Receivers()[c].None?
    ensures Rendered(q.query, q.params) == Statement(Psql, t.tableName, [], t.filter, t.orderBy, t.limit)
    ensures q.scanList == []
  {
    ghost var selected;
    q, selected := t.Build(acc, Psql);
    assert forall c :: c in t.fields ==> t.fields[c].receiver == t.Receivers()[c];
  }

  /** The statement with a limit and no selected column: "SELECT  FROM exampleTable LIMIT 25 OFFSET 5". */
  lemma LimitSelectText(limit: Option<LimitClause>)
    requires limit == Some(NewLimitClause(25, 5))
    ensures Statement(Psql, "exampleTable", [], NewCompoundClause("AND"), NewCompoundClause(","), limit) ==
      Rendered("SELECT " + "" + " FROM " + "exampleTable" + " LIMIT 25 OFFSET 5", [])
  {
    StatementWithoutClauses(Psql, "exampleTable", [], limit);
    LimitExamples();
  }

  /** Limit(25, 5) on a table without receivers: the text ends in " LIMIT 25 OFFSET 5". */
  method LimitSelect() returns (text: string, params: seq<Value>)
    ensures text == "SELECT " + "" + " FROM " + "exampleTable" + " LIMIT 25 OFFSET 5" && params == []
  {
    var t := ExampleTable();
    t.Limit(25, 5);
    var acc := ExampleAccumulator();
    LimitSelectText(t.limit);
    var q := BuildNoneBound(t, acc);
    text := q.query;
    params := q.params;
  }

  /** The only strictly sorted list of two names in order is that pair. */
  lemma TwoNamesSorted(selected: seq<string>, x: string, y: string)
    requires LexLess(x, y) && StrictlySorted(selected)
    requires forall c :: c in selected <==> c == x || c == y
    ensures selected == [x, y]
  {
    StrictlySortedUnique(selected, [x, y]);
  }
}
