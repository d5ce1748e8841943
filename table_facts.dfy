/** Properties of the statement a table builds. */
module TableFacts {
  import opened Wrappers
  import opened Values
  import opened Text
  import opened Dialects
  import opened Params
  import opened Clauses
  import opened ClauseFacts
  import opened Tables

  /**
   * The statement's parameters are the values its clauses use, each once, in first-use
   * order: every filter value is numbered before any ordering value.
   */
  lemma StatementParams(d: Dialect, tableName: string, selected: seq<string>, filter: CompoundClause,
                        orderBy: CompoundClause, limit: Option<LimitClause>)
    ensures Statement(d, tableName, selected, filter, orderBy, limit).params ==
      AppendNew([], UsesAll(filter.predicates) + UsesAll(orderBy.predicates))
  {
    PredicatesRecordUses(d, filter.predicates, []);
    var w := RenderCompound(d, filter, []);
    PredicatesRecordUses(d, orderBy.predicates, w.params);
    AppendNewConcat([], UsesAll(filter.predicates), UsesAll(orderBy.predicates));
  }

  /** With no filter and no ordering there is no WHERE part and no parameter. */
  lemma StatementWithoutClauses(d: Dialect, tableName: string, selected: seq<string>, limit: Option<LimitClause>)
    ensures Statement(d, tableName, selected, NewCompoundClause("AND"), NewCompoundClause(","), limit) ==
      Rendered("SELECT " + Join(selected, ", ") + " FROM " + tableName + (if limit.Some? then LimitText(limit.value) else ""), [])
  {
    CompoundShape(d, NewCompoundClause("AND"), []);
    CompoundShape(d, NewCompoundClause(","), []);
  }

  /** A filter that binds nothing, and no ordering: the filter's text follows " WHERE ". */
  lemma UnboundFilterStatement(d: Dialect, tableName: string, selected: seq<string>, filter: CompoundClause, text: string)
    requires NumClauses(filter) > 0 && RenderCompound(d, filter, []) == Rendered(text, [])
    ensures Statement(d, tableName, selected, filter, NewCompoundClause(","), None) ==
      Rendered("SELECT " + Join(selected, ", ") + " FROM " + tableName + (" WHERE " + text), [])
  {
    CompoundShape(d, NewCompoundClause(","), []);
    assert RenderCompound(d, NewCompoundClause(","), []) == Rendered("", []);
  }

  /** An equality filter's text: the column, then " = " and the first placeholder. */
  lemma EqualsWords(column: string)
    ensures column + " " + "=" + " " + "" + "$1" + "" == column + " = $1"
  {
    var t := column + " " + "=" + " " + "$1";
    assert |t| == |column + " = $1"|;
    assert forall i :: 0 <= i < |t| ==> t[i] == (column + " = $1")[i];
  }

  /** A table's first equality filter renders as "column = $1" and binds the value. */
  lemma EqualsFilterText(d: Dialect, column: string, v: Value)
    requires forall i :: 0 <= i < |column| ==> column[i] != '%'
    ensures RenderCompound(d, AddClause(NewCompoundClause("AND"), Filter(NewPrimitiveFilterClause(column, "=", "%s", Some(v)))), []) ==
      Rendered(column + " = $1", [v])
  {
    var filter := AddClause(NewCompoundClause("AND"), Filter(NewPrimitiveFilterClause(column, "=", "%s", Some(v))));
    CompoundShape(d, filter, []);
    PrimitiveFilterRender(d, column, "=", "%s", "", "", v, []);
    FormatParamOne();
    assert Intern(d, [], v) == Interned([v], "$1");
    EqualsWords(column);
  }

  /** One equality filter: " WHERE column = $1", with the value as the only parameter. */
  lemma EqualsFilterStatement(d: Dialect, tableName: string, selected: seq<string>, column: string, v: Value)
    requires forall i :: 0 <= i < |column| ==> column[i] != '%'
    ensures Statement(d, tableName, selected,
                      AddClause(NewCompoundClause("AND"), Filter(NewPrimitiveFilterClause(column, "=", "%s", Some(v)))),
                      NewCompoundClause(","), None) ==
      Rendered("SELECT " + Join(selected, ", ") + " FROM " + tableName + (" WHERE " + (column + " = $1")), [v])
  {
    EqualsFilterText(d, column, v);
    CompoundShape(d, NewCompoundClause(","), [v]);
    assert RenderCompound(d, NewCompoundClause(","), [v]) == Rendered("", [v]);
  }

  /**
   * One ordering: its text follows the table name directly, with no ORDER BY keyword and no
   * space; the column name is the parameter and the direction is always ascending.
   */
  lemma OrderByStatement(d: Dialect, tableName: string, selected: seq<string>, column: string, direction: SortDirection)
    requires column != ""
    ensures Statement(d, tableName, selected, NewCompoundClause("AND"),
                      AddClause(NewCompoundClause(","), OrderBy(NewOrderByClause(column, direction))), None) ==
      Rendered("SELECT " + Join(selected, ", ") + " FROM " + tableName + "$1 ASC", [StringValue(column)])
  {
    var orderBy := AddClause(NewCompoundClause(","), OrderBy(NewOrderByClause(column, direction)));
    CompoundShape(d, NewCompoundClause("AND"), []);
    assert RenderCompound(d, NewCompoundClause("AND"), []) == Rendered("", []);
    CompoundShape(d, orderBy, []);
    OrderByRender(d, column, direction, []);
    FormatParamOne();
    assert Intern(d, [], StringValue(column)) == Interned([StringValue(column)], "$1");
    assert "$1" + " ASC" == "$1 ASC";
    assert RenderCompound(d, orderBy, []) == Rendered("$1 ASC", [StringValue(column)]);
  }
}
