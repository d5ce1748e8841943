/**
 * Tables: the columns of a table, taken from a struct model's tags; the receivers bound to
 * them; the filter, ordering and limit applied to it; and building the SELECT statement.
 * Panics become a `Fatal` outcome; a method that fails changes nothing it did not change
 * before the point where the Go code panics.
 */
module Tables {
  import opened Wrappers
  import opened Values
  import opened Text
  import opened Dialects
  import opened Params
  import opened Clauses
  import opened ClauseFacts
  import opened Columns
  import opened TypeAdaptors
  import opened Accumulators
  import opened Queries
  import opened Sorting

  /** Why a table operation panics. */
  datatype Fatal =
    | ModelNotStructPointer
    | ReceiverNotPointer
    | ColumnNotInTable(column: string)
    | ReceiverTypeMismatch(got: Kind, want: Kind)
    | UnknownFilterColumn(column: string, available: set<string>)
    | NoSuchColumn(column: string)
    | ParamTypeMismatch(need: Kind, given: TypeDesc)
    | ColumnErrors(problems: map<string, ReceiverProblem>)

  /** The per-column messages LoadReceiversFromAccumulator collects before panicking. */
  datatype ReceiverProblem = NotReference | InvalidType(got: Kind, want: Kind) | NotIncluded

  /** A field of a table model struct: its kind and its struct tags. */
  datatype Field = Field(kind: Kind, tags: map<string, string>)

  /** The model handed to NewTable: whether it is a pointer, the kind behind it, its fields. */
  datatype Model = Model(isPointer: bool, target: Kind, fields: seq<Field>)

  /** reflect.StructTag.Get: the tag's value, or "" when the key is absent. */
  function Tag(f: Field, key: string): string
  {
    if key in f.tags then f.tags[key] else ""
  }

  /** The column kinds NewTable derives from a model's fields, field by field. */
  function ColumnKinds(fs: seq<Field>, key: string): map<string, Kind>
  {
    if fs == [] then map[]
    else ColumnKinds(fs[..|fs| - 1], key)[Tag(fs[|fs| - 1], key) := fs[|fs| - 1].kind]
  }

  /** Every field names one column, and nothing else does. */
  lemma {:induction false} ColumnKindsNames(fs: seq<Field>, key: string)
    ensures forall c :: c in ColumnKinds(fs, key) <==> exists i :: 0 <= i < |fs| && Tag(fs[i], key) == c
  {
    if fs != [] {
      var init := fs[..|fs| - 1];
      ColumnKindsNames(init, key);
      forall c | c in ColumnKinds(fs, key)
        ensures exists i :: 0 <= i < |fs| && Tag(fs[i], key) == c
      {
        if c != Tag(fs[|fs| - 1], key) {
          assert c in ColumnKinds(init, key);
          var i :| 0 <= i < |init| && Tag(init[i], key) == c;
          assert fs[i] == init[i];
        }
      }
      forall c | exists i :: 0 <= i < |fs| && Tag(fs[i], key) == c
        ensures c in ColumnKinds(fs, key)
      {
        var i :| 0 <= i < |fs| && Tag(fs[i], key) == c;
        if i < |init| {
          assert fs[i] == init[i];
        }
      }
    }
  }

  /** When several fields carry the same tag, the last of them decides the column's kind. */
  lemma {:induction false} ColumnKindsLastWins(fs: seq<Field>, key: string, i: int)
    requires 0 <= i < |fs|
    requires forall j :: i < j < |fs| ==> Tag(fs[j], key) != Tag(fs[i], key)
    ensures Tag(fs[i], key) in ColumnKinds(fs, key)
    ensures ColumnKinds(fs, key)[Tag(fs[i], key)] == fs[i].kind
  {
    var init := fs[..|fs| - 1];
    if i < |init| {
      assert fs[i] == init[i];
      forall j | i < j < |init|
        ensures Tag(init[j], key) != Tag(init[i], key)
      {
        assert init[j] == fs[j];
      }
      ColumnKindsLastWins(init, key, i);
    }
  }

  /**
   * A receiver (or parameter) of type t may stand for a column of kind `kind` when t has
   * that kind or is the nullable adapter for it.
   */
  predicate Acceptable(kind: Kind, t: TypeDesc)
  {
    KindOf(t) == kind || (NullType(kind).Some? && t == Adapter(NullType(kind).value))
  }

  /**
   * A plain type is accepted only for its own kind. An adapter is accepted for the kind it
   * writes and, since every adapter is a struct, for every struct column as well.
   */
  lemma AcceptableCases(kind: Kind, t: TypeDesc)
    ensures t.Plain? ==> (Acceptable(kind, t) <==> t.kind == kind)
    ensures t.Adapter? ==> (Acceptable(kind, t) <==> kind == ElementKind(t.adapter) || kind == Struct)
  {
    if t.Adapter? {
      NullTypeMatchesElementKind(kind, t.adapter);
    }
  }

  /** SetColumnReceiver's checks, in the order the Go code makes them. */
  function ReceiverCheck(kinds: map<string, Kind>, name: string, r: Receiver): Outcome<Fatal>
  {
    if !r.isPointer then Fail(ReceiverNotPointer)
    else if name !in kinds then Fail(ColumnNotInTable(name))
    else if !Acceptable(kinds[name], r.target) then Fail(ReceiverTypeMismatch(OwnKind(r), kinds[name]))
    else Pass
  }

  /**
   * The message LoadReceiversFromAccumulator keeps for one entry: a later check overwrites
   * an earlier one, so an unknown column or a wrong type hides a non-pointer receiver.
   */
  function EntryProblem(kinds: map<string, Kind>, name: string, r: Receiver): Option<ReceiverProblem>
  {
    if name !in kinds then Some(NotIncluded)
    else if !Acceptable(kinds[name], r.target) then Some(InvalidType(OwnKind(r), kinds[name]))
    else if !r.isPointer then Some(NotReference)
    else None
  }

  /** What LoadReceiversFromAccumulator binds for one entry: slices wrapped for arrays. */
  function EntryBinding(kinds: map<string, Kind>, name: string, r: Receiver): Option<Bound>
  {
    if name in kinds && Acceptable(kinds[name], r.target) then
      Some(if KindOf(r.target) == Slice then ArrayWrapped(r) else Raw(r))
    else None
  }

  /** All problems of a receiver map, keyed by column name. */
  function Problems(kinds: map<string, Kind>, rm: map<string, Receiver>): map<string, ReceiverProblem>
  {
    map c | c in rm && EntryProblem(kinds, c, rm[c]).Some? :: EntryProblem(kinds, c, rm[c]).value
  }

  /** The receivers after loading a map: every entry with a binding rebinds its column. */
  function LoadedReceivers(before: map<string, Option<Bound>>, kinds: map<string, Kind>, rm: map<string, Receiver>): map<string, Option<Bound>>
  {
    map c | c in before :: if c in rm && EntryBinding(kinds, c, rm[c]).Some? then EntryBinding(kinds, c, rm[c]) else before[c]
  }

  /**
   * The two ways of binding agree on every receiver SetColumnReceiver accepts, except
   * that a slice is bound through the array wrapper only when loaded from an accumulator.
   */
  lemma LoadAgreesWithSetColumnReceiver(kinds: map<string, Kind>, name: string, r: Receiver)
    requires ReceiverCheck(kinds, name, r).Pass?
    ensures EntryProblem(kinds, name, r).None?
    ensures EntryBinding(kinds, name, r) == Some(if KindOf(r.target) == Slice then ArrayWrapped(r) else Raw(r))
  {
  }

  /**
   * A non-pointer receiver of the right type is both reported and bound, and an entry
   * is reported exactly when it is not a pointer, names no column, or has the wrong type.
   */
  lemma LoadReportsAndBinds(kinds: map<string, Kind>, rm: map<string, Receiver>, name: string)
    requires name in rm
    ensures name in Problems(kinds, rm) <==> !rm[name].isPointer || ReceiverCheck(kinds, name, rm[name]).Fail?
    ensures !rm[name].isPointer && name in kinds && Acceptable(kinds[name], rm[name].target) ==>
      Problems(kinds, rm)[name] == NotReference && EntryBinding(kinds, name, rm[name]).Some?
    ensures EntryBinding(kinds, name, rm[name]).Some? <==> ReceiverCheck(kinds, name, rm[name].(isPointer := true)).Pass?
  {
  }

  /** Visiting one more entry of a receiver map adds at most that entry's problem. */
  lemma ProblemsStep(kinds: map<string, Kind>, rm: map<string, Receiver>, remaining: set<string>, c: string)
    requires c in remaining && remaining <= rm.Keys
    ensures var before := Problems(kinds, rm - remaining);
      Problems(kinds, rm - (remaining - {c})) ==
        if EntryProblem(kinds, c, rm[c]).Some? then before[c := EntryProblem(kinds, c, rm[c]).value] else before
  {
  }

  /** Visiting one more entry of a receiver map rebinds at most that entry's column. */
  lemma LoadedStep(before: map<string, Option<Bound>>, kinds: map<string, Kind>, rm: map<string, Receiver>,
                   remaining: set<string>, c: string)
    requires c in remaining && remaining <= rm.Keys
    requires EntryBinding(kinds, c, rm[c]).Some? ==> c in before
    ensures var now := LoadedReceivers(before, kinds, rm - remaining);
      LoadedReceivers(before, kinds, rm - (remaining - {c})) ==
        if EntryBinding(kinds, c, rm[c]).Some? then now[c := EntryBinding(kinds, c, rm[c])] else now
  {
  }

  /**
   * The statement Build produces: the selected columns, the filter after " WHERE ", the
   * ordering without an ORDER BY keyword, then the limit; filter values are numbered first.
   */
  function Statement(d: Dialect, tableName: string, selected: seq<string>, filter: CompoundClause,
                     orderBy: CompoundClause, limit: Option<LimitClause>): Rendered
  {
    var w := RenderCompound(d, filter, []);
    var o := RenderCompound(d, orderBy, w.params);
    Rendered("SELECT " + Join(selected, ", ") + " FROM " + tableName
             + (if NumClauses(filter) > 0 then " WHERE " + w.text else "")
             + (if NumClauses(orderBy) > 0 then o.text else "")
             + (if limit.Some? then LimitText(limit.value) else ""),
             o.params)
  }

  class Table {
    const tableName: string
    /** The column set is fixed when the table is made; only the columns' receivers change. */
    const fields: map<string, Column>
    var filter: CompoundClause
    var orderBy: CompoundClause
    var limit: Option<LimitClause>

    /** Each name has its own column object; filters are ANDed, orderings comma-separated. */
    ghost predicate Valid()
      reads this
    {
      (forall a, b :: a in fields && b in fields && a != b ==> fields[a] != fields[b])
      && filter.operator == "AND" && orderBy.operator == ","
    }

    function Kinds(): map<string, Kind>
    {
      map c | c in fields :: fields[c].kind
    }

    function Receivers(): map<string, Option<Bound>>
      reads fields.Values
    {
      map c | c in fields :: fields[c].receiver
    }

    /** The table NewTable builds once the model has passed its checks. */
    constructor (tableName: string, dialect: Dialect, model: Model)
      ensures this.tableName == tableName && Valid()
      ensures Kinds() == ColumnKinds(model.fields, StructTag(dialect))
      ensures forall c :: c in fields ==> fresh(fields[c]) && fields[c].receiver.None?
      ensures filter == NewCompoundClause("AND") && orderBy == NewCompoundClause(",") && limit.None?
    {
      var key := StructTag(dialect);
      var m: map<string, Column> := map[];
      var i := 0;
      while i < |model.fields|
        invariant i <= |model.fields|
        invariant forall c :: c in m ==> fresh(m[c]) && m[c].receiver.None?
        invariant forall a, b :: a in m && b in m && a != b ==> m[a] != m[b]
        invariant (map c | c in m :: m[c].kind) == ColumnKinds(model.fields[..i], key)
      {
        var column := new Column(model.fields[i].kind);
        assert model.fields[..i + 1][..i] == model.fields[..i];
        m := m[Tag(model.fields[i], key) := column];
        i := i + 1;
      }
      assert model.fields[..i] == model.fields;
      this.tableName := tableName;
      fields := m;
      filter := NewCompoundClause("AND");
      orderBy := NewCompoundClause(",");
      limit := None;
    }

    /** NewTable: the model must be a pointer to a struct. */
    static method NewTable(tableName: string, dialect: Dialect, model: Model) returns (r: Result<Table, Fatal>)
      ensures r.Failure? <==> !model.isPointer || model.target != Struct
      ensures r.Failure? ==> r.error == ModelNotStructPointer
      ensures r.Success? ==>
        var t := r.value;
        fresh(t) && t.Valid() && t.tableName == tableName &&
        t.Kinds() == ColumnKinds(model.fields, StructTag(dialect)) &&
        (forall c :: c in t.fields ==> fresh(t.fields[c]) && t.fields[c].receiver.None?) &&
        t.filter == NewCompoundClause("AND") && t.orderBy == NewCompoundClause(",") && t.limit.None?
    {
      if !model.isPointer || model.target != Struct {
        return Failure(ModelNotStructPointer);
      }
      var t := new Table(tableName, dialect, model);
      return Success(t);
    }

    /** SetColumnReceiver: checks the receiver, then binds it to its column. */
    method SetColumnReceiver(columnName: string, scanTo: Receiver) returns (r: Outcome<Fatal>)
      requires Valid()
      modifies fields.Values
      ensures Valid()
      ensures r == ReceiverCheck(Kinds(), columnName, scanTo)
      ensures r.Pass? ==> Receivers() == old(Receivers())[columnName := Some(Raw(scanTo))]
      ensures r.Fail? ==> Receivers() == old(Receivers())
    {
      if !scanTo.isPointer {
        return Fail(ReceiverNotPointer);
      }
      if columnName in fields {
        var column := fields[columnName];
        if !Acceptable(column.kind, scanTo.target) {
          return Fail(ReceiverTypeMismatch(OwnKind(scanTo), column.kind));
        }
        if KindOf(scanTo.target) == Slice {
          column.SetReceiver(ArrayWrapped(scanTo));
        }
        column.SetReceiver(Raw(scanTo));
        return Pass;
      }
      return Fail(ColumnNotInTable(columnName));
    }

    /**
     * One pass of LoadReceiversFromAccumulator's loop: records the entry's problems (a later
     * one replacing an earlier one) and binds the receiver when its type fits the column.
     */
    method LoadEntry(columnErrors: map<string, ReceiverProblem>, columnName: string, receiver: Receiver)
      returns (errors: map<string, ReceiverProblem>)
      requires Valid()
      modifies fields.Values
      ensures Valid()
      ensures errors == match EntryProblem(Kinds(), columnName, receiver)
        case Some(p) => columnErrors[columnName := p]
        case None => columnErrors
      ensures Receivers() == match EntryBinding(Kinds(), columnName, receiver)
        case Some(b) => old(Receivers())[columnName := Some(b)]
        case None => old(Receivers())
    {
      errors := columnErrors;
      if !receiver.isPointer {
        errors := errors[columnName := NotReference];
      }
      if columnName in fields {
        var column := fields[columnName];
        if !Acceptable(column.kind, receiver.target) {
          errors := errors[columnName := InvalidType(OwnKind(receiver), column.kind)];
          return;
        }
        if KindOf(receiver.target) == Slice {
          column.SetReceiver(ArrayWrapped(receiver));
          return;
        }
        column.SetReceiver(Raw(receiver));
      } else {
        errors := errors[columnName := NotIncluded];
      }
    }

    /**
     * LoadReceiversFromAccumulator: binds every acceptable entry of the accumulator's map,
     * collecting a problem for each bad one; fails once at the end if there was any.
     */
    method LoadReceiversFromAccumulator<T>(a: Accumulator<T>) returns (r: Outcome<Fatal>)
      requires Valid()
      modifies fields.Values
      ensures Valid()
      ensures var problems := Problems(Kinds(), a.columnReceiverMap);
        r == if |problems| > 0 then Fail(ColumnErrors(problems)) else Pass
      ensures Receivers() == LoadedReceivers(old(Receivers()), Kinds(), a.columnReceiverMap)
    {
      var columnErrors: map<string, ReceiverProblem> := map[];
      var receivers := a.GetColumnReceiverMap();
      var remaining := receivers.Keys;
      ghost var before := Receivers();
      while remaining != {}
        invariant remaining <= receivers.Keys && Valid()
        invariant columnErrors == Problems(Kinds(), receivers - remaining)
        invariant Receivers() == LoadedReceivers(before, Kinds(), receivers - remaining)
        decreases |remaining|
      {
        var columnName :| columnName in remaining;
        ProblemsStep(Kinds(), receivers, remaining, columnName);
        LoadedStep(before, Kinds(), receivers, remaining, columnName);
        columnErrors := LoadEntry(columnErrors, columnName, receivers[columnName]);
        remaining := remaining - {columnName};
      }
      assert receivers - remaining == receivers;
      if |columnErrors| > 0 {
        return Fail(ColumnErrors(columnErrors));
      }
      return Pass;
    }

    /** AssertFilterClauseValid: the column exists and the value's type fits its kind. */
    method AssertFilterClauseValid(columnName: string, param: Value) returns (r: Outcome<Fatal>)
      ensures columnName !in fields ==> r == Fail(UnknownFilterColumn(columnName, fields.Keys))
      ensures columnName in fields ==> (r.Pass? <==> Acceptable(fields[columnName].kind, param.ty))
      ensures columnName in fields && r.Fail? ==> r == Fail(ParamTypeMismatch(fields[columnName].kind, param.ty))
    {
      if columnName !in fields {
        return Fail(UnknownFilterColumn(columnName, fields.Keys));
      }
      var column := fields[columnName];
      if !Acceptable(column.kind, param.ty) {
        return Fail(ParamTypeMismatch(column.kind, param.ty));
      }
      return Pass;
    }

    method AssertColumnExists(columnName: string) returns (r: Outcome<Fatal>)
      ensures r.Pass? <==> columnName in fields
      ensures r.Fail? ==> r == Fail(NoSuchColumn(columnName))
    {
      if columnName !in fields {
        return Fail(NoSuchColumn(columnName));
      }
      return Pass;
    }

    /** ColumnEquals: after validating, ANDs "column = %s" bound to v onto the filter. */
    method ColumnEquals(columnName: string, v: Value) returns (r: Outcome<Fatal>)
      requires Valid()
      modifies this
      ensures Valid()
      ensures r.Pass? <==> columnName in Kinds() && Acceptable(Kinds()[columnName], v.ty)
      ensures filter == if r.Pass? then AddClause(old(filter), Filter(NewPrimitiveFilterClause(columnName, "=", "%s", Some(v)))) else old(filter)
      ensures orderBy == old(orderBy) && limit == old(limit)
    {
      r := AssertFilterClauseValid(columnName, v);
      if r.Fail? {
        return;
      }
      filter := AddClause(filter, Filter(NewPrimitiveFilterClause(columnName, "=", "%s", Some(v))));
    }

    /** ColumnNull: for an existing column, ANDs "column IS NULL", with no value, onto the filter. */
    method ColumnNull(columnName: string) returns (r: Outcome<Fatal>)
      requires Valid()
      modifies this
      ensures Valid()
      ensures r.Pass? <==> columnName in Kinds()
      ensures filter == if r.Pass? then AddClause(old(filter), Filter(NewPrimitiveFilterClause(columnName, "IS", "NULL", None))) else old(filter)
      ensures orderBy == old(orderBy) && limit == old(limit)
    {
      r := AssertColumnExists(columnName);
      if r.Fail? {
        return;
      }
      filter := AddClause(filter, Filter(NewPrimitiveFilterClause(columnName, "IS", "NULL", None)));
    }

    /** BuildFilter: renders the filter into the given parameter list. */
    method BuildFilter(params: ParamList) returns (s: string)
      modifies params
      ensures Rendered(s, params.params) == RenderCompound(params.dialect, filter, old(params.params))
    {
      s := filter.Build(params);
    }

    /** AddOrderByClause: appends an ordering on the column; the column is not checked. */
    method AddOrderByClause(columnName: string, sortDirection: SortDirection)
      requires Valid()
      modifies this
      ensures Valid()
      ensures orderBy == AddClause(old(orderBy), OrderBy(NewOrderByClause(columnName, sortDirection)))
      ensures filter == old(filter) && limit == old(limit)
    {
      orderBy := AddClause(orderBy, OrderBy(NewOrderByClause(columnName, sortDirection)));
    }

    /** Limit: replaces any earlier limit. */
    method Limit(rowCount: int64, offset: int64)
      requires Valid()
      modifies this
      ensures Valid()
      ensures limit == Some(NewLimitClause(rowCount, offset))
      ensures filter == old(filter) && orderBy == old(orderBy)
    {
      limit := Some(NewLimitClause(rowCount, offset));
    }

    /** The column names, in the order a map iteration happens to produce them. */
    method CollectKeys() returns (keys: seq<string>)
      ensures multiset(keys) == multiset(fields.Keys)
    {
      keys := [];
      var remaining := fields.Keys;
      while remaining != {}
        invariant remaining <= fields.Keys
        invariant multiset(keys) + multiset(remaining) == multiset(fields.Keys)
        decreases |remaining|
      {
        var key :| key in remaining;
        assert multiset(remaining) == multiset(remaining - {key}) + multiset{key};
        keys := keys + [key];
        remaining := remaining - {key};
      }
    }

    /**
     * The loop of Build over the sorted column names: keeps the columns that have a
     * receiver, in the same order, each paired with its receiver.
     */
    method SelectBound(keys: seq<string>) returns (selectedFields: seq<string>, scanList: seq<Bound>)
      requires StrictlySorted(keys) && forall c :: c in keys ==> c in fields
      ensures StrictlySorted(selectedFields) && |scanList| == |selectedFields|
      ensures forall c :: c in selectedFields <==> c in keys && fields[c].receiver.Some?
      ensures forall j :: 0 <= j < |selectedFields| ==>
        selectedFields[j] in fields && fields[selectedFields[j]].receiver == Some(scanList[j])
    {
      selectedFields := [];
      scanList := [];
      var i := 0;
      while i < |keys|
        invariant i <= |keys|
        invariant StrictlySorted(selectedFields) && |scanList| == |selectedFields|
        invariant forall c :: c in selectedFields <==> c in keys[..i] && fields[c].receiver.Some?
        invariant forall j :: 0 <= j < |selectedFields| ==>
          selectedFields[j] in fields && fields[selectedFields[j]].receiver == Some(scanList[j])
      {
        var columnName := keys[i];
        var sp := fields[columnName];
        if sp.receiver.Some? {
          forall j | 0 <= j < |selectedFields|
            ensures LexLess(selectedFields[j], columnName)
          {
            assert selectedFields[j] in keys[..i];
          }
          selectedFields := selectedFields + [columnName];
          scanList := scanList + [sp.receiver.value];
        }
        assert keys[..i + 1] == keys[..i] + [keys[i]];
        i := i + 1;
      }
      assert keys[..i] == keys;
    }

    /**
     * Build: the columns with a receiver, in sorted order, paired with their receivers in the
     * scan list; the statement text and parameters are those of Statement. `selected` names
     * the columns; being strictly sorted, it is the only list with those names.
     */
    method Build<T>(a: Accumulator<T>, dialect: Dialect) returns (q: Query<T>, ghost selected: seq<string>)
      requires Valid()
      ensures fresh(q) && q.accumulator == a
      ensures StrictlySorted(selected)
      ensures forall c :: c in selected <==> c in fields && fields[c].receiver.Some?
      ensures |q.scanList| == |selected|
      ensures forall i :: 0 <= i < |selected| ==> selected[i] in fields && fields[selected[i]].receiver == Some(q.scanList[i])
      ensures Rendered(q.query, q.params) == Statement(dialect, tableName, selected, filter, orderBy, limit)
    {
      var paramList := new ParamList(dialect);
      var filters := "";
      if NumClauses(filter) > 0 {
        var built := filter.Build(paramList);
        filters := " WHERE " + built;
      }
      CompoundShape(dialect, filter, []);
      var keys := CollectKeys();
      keys := SortStrings(keys);
      SortedSetIsStrict(keys, fields.Keys);
      var selectedFields, scanList := SelectBound(keys);
      var limitClause := "";
      if limit.Some? {
        limitClause := LimitText(limit.value);
      }
      var orderClause := "";
      CompoundShape(dialect, orderBy, paramList.params);
      if NumClauses(orderBy) > 0 {
        orderClause := orderBy.Build(paramList);
      }
      var params := paramList.GetParamList();
      q := new Query("SELECT " + Join(selectedFields, ", ") + " FROM " + tableName + filters + orderClause + limitClause,
                     scanList, params, a);
      selected := selectedFields;
    }
  }
}
