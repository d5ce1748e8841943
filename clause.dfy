/**
 * Clauses, the building blocks of a query: filters, compound boolean trees, orderings
 * and limits. Each clause renders to SQL text while recording the values it binds in a
 * parameter list shared by the whole Build pass.
 *
 * The tree is modelled as a value. Rendering is specified by state-passing functions
 * (Render*: list before, text and list after); the Build methods work on a ParamList
 * object as the Go code does and are proved to agree with them.
 */
module Clauses {
  import opened Wrappers
  import opened Values
  import opened Decimal
  import opened Text
  import opened Dialects
  import opened Params

  /** SortDirection is an int; the three named constants and any other number. */
  type SortDirection = int
  const Unset: SortDirection := 0
  const Ascending: SortDirection := 1
  const Descending: SortDirection := 2

  /** A predicate template with at most one "%s" slot, and the value bound to it (nil: none). */
  datatype FilterClause = FilterClause(template: string, paramValue: Option<Value>)
  {
    method Build(params: ParamList) returns (s: string)
      modifies params
      ensures Rendered(s, params.params) == RenderFilter(params.dialect, this, old(params.params))
    {
      if paramValue.None? {
        return template;
      }
      var placeholder := params.RecordValueAndReturnParam(paramValue.value);
      return Sprintf1(template, placeholder);
    }
  }

  /** Child clauses joined by an operator that never changes after construction. */
  datatype CompoundClause = CompoundClause(predicates: seq<Clause>, operator: string)
  {
    /** Renders the children left to right on one list, then joins and wraps them. */
    method Build(params: ParamList) returns (s: string)
      modifies params
      ensures Rendered(s, params.params) == RenderCompound(params.dialect, this, old(params.params))
      decreases this, 1
    {
      var template := "%s";
      if |predicates| > 1 {
        template := "(%s)";
      }
      var builtPredicates: seq<string> := [];
      var i := 0;
      while i < |predicates|
        invariant i <= |predicates|
        invariant RenderedAll(builtPredicates, params.params) == RenderPredicates(params.dialect, predicates[..i], old(params.params))
      {
        assert predicates[..i + 1] == predicates[..i] + [predicates[i]];
        PredicatesSnoc(params.dialect, predicates[..i], predicates[i], old(params.params));
        var text := predicates[i].Build(params);
        builtPredicates := builtPredicates + [text];
        i := i + 1;
      }
      assert predicates[..i] == predicates;
      var joined := Join(builtPredicates, " " + operator + " ");
      FillCompoundTemplate(joined, |predicates| > 1);
      s := Sprintf1(template, joined);
    }
  }

  /** The compound template "(%s)" or "%s" filled with the joined children. */
  lemma FillCompoundTemplate(joined: string, wrapped: bool)
    ensures Sprintf1(if wrapped then "(%s)" else "%s", joined) == if wrapped then "(" + joined + ")" else joined
  {
    if wrapped {
      Sprintf1FillsSlot("(", ")", joined);
    } else {
      Sprintf1FillsSlot("", "", joined);
    }
  }

  /** Rendering one more sibling: it starts from the list its predecessors leave behind. */
  lemma PredicatesSnoc(d: Dialect, cs: seq<Clause>, c: Clause, ps: seq<Value>)
    ensures var front := RenderPredicates(d, cs, ps);
      var last := RenderClause(d, c, front.params);
      RenderPredicates(d, cs + [c], ps) == RenderedAll(front.texts + [last.text], last.params)
  {
    assert (cs + [c])[..|cs|] == cs;
  }

  /** An ordering on one column; its template is the constant "%s %s". */
  datatype OrderByClause = OrderByClause(columnName: string, sortDirection: SortDirection)
  {
    method Build(params: ParamList) returns (s: string)
      modifies params
      ensures Rendered(s, params.params) == RenderOrderBy(params.dialect, this, old(params.params))
    {
      if columnName == "" {
        return "";
      }
      var placeholder := params.RecordValueAndReturnParam(StringValue(columnName));
      return placeholder + " " + GetOrderByValue(sortDirection);
    }
  }

  /** The Clause interface: the three kinds of clause that render against a ParamList. */
  datatype Clause = Filter(filter: FilterClause) | Compound(compound: CompoundClause) | OrderBy(orderBy: OrderByClause)
  {
    method Build(params: ParamList) returns (s: string)
      modifies params
      ensures Rendered(s, params.params) == RenderClause(params.dialect, this, old(params.params))
      decreases this, 2
    {
      match this
      case Filter(f) => s := f.Build(params);
      case Compound(c) => s := c.Build(params);
      case OrderBy(o) => s := o.Build(params);
    }
  }

  /** A row count and an offset; it is not a Clause (its Build takes no parameter list). */
  datatype LimitClause = LimitClause(rowCount: int64, offset: int64)

  function NewPrimitiveFilterClause(columnName: string, operator: string, paramTemplate: string, p: Option<Value>): FilterClause
  {
    var slot := if paramTemplate == "" then "%s" else paramTemplate;
    FilterClause(Join([columnName, operator, slot], " "), p)
  }

  function NewCompoundClause(operator: string): CompoundClause
  {
    CompoundClause([], operator)
  }

  /** AddClause: the new child goes last. */
  function AddClause(c: CompoundClause, nc: Clause): CompoundClause
  {
    c.(predicates := c.predicates + [nc])
  }

  function NumClauses(c: CompoundClause): int
  {
    |c.predicates|
  }

  function GetOrderByValue(sd: SortDirection): string
  {
    if sd == Ascending then "ASC"
    else if sd == Descending then "DESC"
    else ""
  }

  /** The direction argument is not used: every clause made here sorts ascending. */
  function NewOrderByClause(columnName: string, sortDirection: SortDirection): OrderByClause
  {
    OrderByClause(columnName, Ascending)
  }

  function NewLimitClause(rowCount: int64, offset: int64): LimitClause
  {
    LimitClause(rowCount, offset)
  }

  /** LimitClause.Build: " LIMIT n", then " OFFSET m" only for a positive offset. */
  function LimitText(l: LimitClause): string
  {
    " LIMIT " + IntToString(l.rowCount as int) + (if l.offset > 0 then " OFFSET " + IntToString(l.offset as int) else "")
  }

  /** Rendered text and the parameter list after rendering. */
  datatype Rendered = Rendered(text: string, params: seq<Value>)

  /** The texts of a run of sibling clauses and the parameter list after all of them. */
  datatype RenderedAll = RenderedAll(texts: seq<string>, params: seq<Value>)

  function RenderFilter(d: Dialect, f: FilterClause, ps: seq<Value>): Rendered
  {
    match f.paramValue
    case None => Rendered(f.template, ps)
    case Some(v) =>
      var r := Intern(d, ps, v);
      Rendered(Sprintf1(f.template, r.placeholder), r.params)
  }

  /** The column name itself is bound as a parameter; the direction word follows it. */
  function RenderOrderBy(d: Dialect, o: OrderByClause, ps: seq<Value>): Rendered
  {
    if o.columnName == "" then Rendered("", ps)
    else
      var r := Intern(d, ps, StringValue(o.columnName));
      Rendered(r.placeholder + " " + GetOrderByValue(o.sortDirection), r.params)
  }

  function RenderClause(d: Dialect, c: Clause, ps: seq<Value>): Rendered
    decreases c, 2
  {
    match c
    case Filter(f) => RenderFilter(d, f, ps)
    case Compound(cc) => RenderCompound(d, cc, ps)
    case OrderBy(o) => RenderOrderBy(d, o, ps)
  }

  /** Children joined by " op "; wrapped in parentheses only when there are two or more. */
  function RenderCompound(d: Dialect, cc: CompoundClause, ps: seq<Value>): Rendered
    decreases cc, 1
  {
    var all := RenderPredicates(d, cc.predicates, ps);
    var joined := Join(all.texts, " " + cc.operator + " ");
    Rendered(if |cc.predicates| > 1 then "(" + joined + ")" else joined, all.params)
  }

  /** Siblings rendered left to right, each starting from the list the previous one left. */
  function RenderPredicates(d: Dialect, cs: seq<Clause>, ps: seq<Value>): RenderedAll
    decreases cs, 0
  {
    if cs == [] then RenderedAll([], ps)
    else
      var front := RenderPredicates(d, cs[..|cs| - 1], ps);
      var last := RenderClause(d, cs[|cs| - 1], front.params);
      RenderedAll(front.texts + [last.text], last.params)
  }
}

/** What rendering a clause tree does: its text shapes and the parameters it records. */
module ClauseFacts {
  import opened Wrappers
  import opened Values
  import opened Decimal
  import opened Text
  import opened Dialects
  import opened Params
  import opened Clauses

  /** The values a clause tree asks to intern, depth first and left to right. */
  function Uses(c: Clause): seq<Value>
    decreases c, 1
  {
    match c
    case Filter(f) => if f.paramValue.Some? then [f.paramValue.value] else []
    case Compound(cc) => UsesAll(cc.predicates)
    case OrderBy(o) => if o.columnName == "" then [] else [StringValue(o.columnName)]
  }

  function UsesAll(cs: seq<Clause>): seq<Value>
    decreases cs, 0
  {
    if cs == [] then [] else UsesAll(cs[..|cs| - 1]) + Uses(cs[|cs| - 1])
  }

  /** The list after interning vs in order: each value not yet present is appended once. */
  function AppendNew(ps: seq<Value>, vs: seq<Value>): seq<Value>
    decreases |vs|
  {
    if vs == [] then ps
    else AppendNew(if vs[0] in ps then ps else ps + [vs[0]], vs[1..])
  }

  lemma {:induction false} AppendNewConcat(ps: seq<Value>, a: seq<Value>, b: seq<Value>)
    ensures AppendNew(ps, a + b) == AppendNew(AppendNew(ps, a), b)
    decreases |a|
  {
    if a != [] {
      var ps' := if a[0] in ps then ps else ps + [a[0]];
      assert (a + b)[1..] == a[1..] + b;
      AppendNewConcat(ps', a[1..], b);
    } else {
      assert a + b == b;
    }
  }

  /**
   * Interning a run of values keeps the list free of duplicates, keeps what was there as a
   * prefix, and adds exactly the values of the run that were missing.
   */
  lemma {:induction false} AppendNewSpec(ps: seq<Value>, vs: seq<Value>)
    requires NoDuplicates(ps)
    ensures var r := AppendNew(ps, vs);
      NoDuplicates(r) && ps <= r && forall v :: v in r <==> v in ps || v in vs
    decreases |vs|
  {
    if vs != [] {
      var ps' := if vs[0] in ps then ps else ps + [vs[0]];
      AppendNewSpec(ps', vs[1..]);
      assert forall v :: v in vs <==> v == vs[0] || v in vs[1..];
    }
  }

  /** Values that are all new and all different are appended as they are, in order. */
  lemma {:induction false} AppendNewDistinct(ps: seq<Value>, vs: seq<Value>)
    requires NoDuplicates(ps + vs)
    ensures AppendNew(ps, vs) == ps + vs
    decreases |vs|
  {
    if vs != [] {
      assert (ps + vs)[|ps|] == vs[0];
      assert forall i :: 0 <= i < |ps| ==> ps[i] == (ps + vs)[i] && (ps + vs)[i] != (ps + vs)[|ps|];
      assert ps + [vs[0]] + vs[1..] == ps + vs;
      AppendNewDistinct(ps + [vs[0]], vs[1..]);
    }
  }

  /**
   * The parameter list a clause leaves behind is the list it started from followed by the
   * values it used, in first-use order, each recorded once.
   */
  lemma {:induction false} RenderRecordsUses(d: Dialect, c: Clause, ps: seq<Value>)
    ensures RenderClause(d, c, ps).params == AppendNew(ps, Uses(c))
    decreases c, 1
  {
    match c
    case Filter(f) =>
    case Compound(cc) => PredicatesRecordUses(d, cc.predicates, ps);
    case OrderBy(o) =>
  }

  lemma {:induction false} PredicatesRecordUses(d: Dialect, cs: seq<Clause>, ps: seq<Value>)
    ensures RenderPredicates(d, cs, ps).params == AppendNew(ps, UsesAll(cs))
    decreases cs, 0
  {
    if cs != [] {
      var n := |cs| - 1;
      PredicatesRecordUses(d, cs[..n], ps);
      var front := RenderPredicates(d, cs[..n], ps);
      RenderRecordsUses(d, cs[n], front.params);
      AppendNewConcat(ps, UsesAll(cs[..n]), Uses(cs[n]));
    }
  }

  /**
   * Rendering keeps the list duplicate-free and only appends to it; when every value the
   * tree uses is distinct and new, they are numbered depth first, left to right.
   */
  lemma RenderAppendsParams(d: Dialect, c: Clause, ps: seq<Value>)
    requires NoDuplicates(ps)
    ensures var r := RenderClause(d, c, ps).params;
      NoDuplicates(r) && ps <= r && (forall v :: v in r <==> v in ps || v in Uses(c))
    ensures NoDuplicates(ps + Uses(c)) ==> RenderClause(d, c, ps).params == ps + Uses(c)
  {
    RenderRecordsUses(d, c, ps);
    AppendNewSpec(ps, Uses(c));
    if NoDuplicates(ps + Uses(c)) {
      AppendNewDistinct(ps, Uses(c));
    }
  }

  /** Zero children render as nothing, one child as itself, more as a parenthesised list. */
  lemma CompoundShape(d: Dialect, cc: CompoundClause, ps: seq<Value>)
    ensures |cc.predicates| == 0 ==> RenderCompound(d, cc, ps) == Rendered("", ps)
    ensures |cc.predicates| == 1 ==> RenderCompound(d, cc, ps) == RenderClause(d, cc.predicates[0], ps)
    ensures |cc.predicates| >= 2 ==>
      var r := RenderCompound(d, cc, ps);
      |r.text| >= 2 && r.text[0] == '(' && r.text[|r.text| - 1] == ')' &&
      r.text[1..|r.text| - 1] == Join(RenderPredicates(d, cc.predicates, ps).texts, " " + cc.operator + " ")
  {
    var all := RenderPredicates(d, cc.predicates, ps);
    var joined := Join(all.texts, " " + cc.operator + " ");
    if |cc.predicates| == 0 {
      assert cc.predicates == [];
      assert all == RenderedAll([], ps);
    } else if |cc.predicates| == 1 {
      assert cc.predicates[..0] == [];
      var only := RenderClause(d, cc.predicates[0], ps);
      assert RenderPredicates(d, cc.predicates[..0], ps) == RenderedAll([], ps);
      assert [] + [only.text] == [only.text];
      assert all == RenderedAll([only.text], only.params);
      assert joined == only.text;
    } else {
      var t := "(" + joined + ")";
      assert t[1..|t| - 1] == joined;
    }
  }

  /** Joining one more part appends the separator and that part, or gives the part alone. */
  lemma JoinSnoc(parts: seq<string>, x: string, sep: string)
    ensures Join(parts + [x], sep) == if |parts| == 0 then x else Join(parts, sep) + sep + x
    ensures |parts| > 0 ==> "(" + Join(parts + [x], sep) + ")" == "(" + Join(parts, sep) + sep + x + ")"
  {
    if |parts| > 0 {
      assert (parts + [x])[..|parts|] == parts;
    }
  }

  /** Rendering siblings gives one text per sibling. */
  lemma {:induction false} RenderRecordsCount(d: Dialect, cs: seq<Clause>, ps: seq<Value>)
    ensures |RenderPredicates(d, cs, ps).texts| == |cs|
  {
    if cs != [] {
      RenderRecordsCount(d, cs[..|cs| - 1], ps);
    }
  }

  /** The rendering of a compound that holds the given siblings' rendering. */
  lemma CompoundOfPredicates(d: Dialect, cc: CompoundClause, ps: seq<Value>, all: RenderedAll)
    requires RenderPredicates(d, cc.predicates, ps) == all
    ensures var joined := Join(all.texts, " " + cc.operator + " ");
      RenderCompound(d, cc, ps) == Rendered(if |cc.predicates| > 1 then "(" + joined + ")" else joined, all.params)
  {
  }

  /**
   * Adding a clause puts its rendering last, after the existing children, and it starts
   * from the parameter list they leave behind.
   */
  lemma AddClauseRendersLast(d: Dialect, cc: CompoundClause, nc: Clause, ps: seq<Value>)
    ensures var before := RenderPredicates(d, cc.predicates, ps);
      var last := RenderClause(d, nc, before.params);
      var sep := " " + cc.operator + " ";
      var r := RenderCompound(d, AddClause(cc, nc), ps);
      r.params == last.params &&
      r.text == if |cc.predicates| == 0 then last.text else "(" + Join(before.texts, sep) + sep + last.text + ")"
    ensures AddClause(cc, nc).operator == cc.operator
    ensures NumClauses(AddClause(cc, nc)) == NumClauses(cc) + 1
  {
    var before := RenderPredicates(d, cc.predicates, ps);
    var last := RenderClause(d, nc, before.params);
    var sep := " " + cc.operator + " ";
    var texts := before.texts + [last.text];
    PredicatesSnoc(d, cc.predicates, nc, ps);
    CompoundOfPredicates(d, AddClause(cc, nc), ps, RenderedAll(texts, last.params));
    RenderRecordsCount(d, cc.predicates, ps);
    JoinSnoc(before.texts, last.text, sep);
  }

  /**
   * A primitive filter's template is the column, the operator and the parameter template
   * joined by spaces, "%s" standing in for an empty parameter template; the value is kept.
   */
  lemma PrimitiveFilterTemplate(column: string, operator: string, paramTemplate: string, p: Option<Value>)
    ensures var slot := if paramTemplate == "" then "%s" else paramTemplate;
      NewPrimitiveFilterClause(column, operator, paramTemplate, p) ==
      FilterClause(column + " " + operator + " " + slot, p)
  {
    var slot := if paramTemplate == "" then "%s" else paramTemplate;
    assert [column, operator, slot][..2] == [column, operator];
    assert [column, operator][..1] == [column];
    assert Join([column], " ") == column;
    assert Join([column, operator], " ") == column + " " + operator;
  }

  /**
   * A primitive filter renders as "column operator template" with the template's slot
   * (the whole template when it is empty) filled by the value's placeholder.
   */
  lemma PrimitiveFilterRender(d: Dialect, column: string, operator: string, template: string,
                              pre: string, post: string, v: Value, ps: seq<Value>)
    requires forall i :: 0 <= i < |column| ==> column[i] != '%'
    requires forall i :: 0 <= i < |operator| ==> operator[i] != '%'
    requires forall i :: 0 <= i < |pre| ==> pre[i] != '%'
    requires (if template == "" then "%s" else template) == pre + "%s" + post
    ensures var interned := Intern(d, ps, v);
      RenderFilter(d, NewPrimitiveFilterClause(column, operator, template, Some(v)), ps) ==
      Rendered(column + " " + operator + " " + pre + interned.placeholder + post, interned.params)
  {
    var slot := if template == "" then "%s" else template;
    PrimitiveFilterTemplate(column, operator, template, Some(v));
    var head := column + " " + operator + " " + pre;
    assert column + " " + operator + " " + slot == head + "%s" + post;
    Sprintf1FillsSlot(head, post, Intern(d, ps, v).placeholder);
  }

  /** A filter without a value renders its template as is and records nothing. */
  lemma NullFilterRender(d: Dialect, f: FilterClause, ps: seq<Value>)
    requires f.paramValue.None?
    ensures RenderFilter(d, f, ps) == Rendered(f.template, ps)
  {
  }

  /**
   * An order-by clause binds its column name as a parameter and always says ASC, whatever
   * direction it was created with; an empty column name renders as nothing.
   */
  lemma OrderByRender(d: Dialect, column: string, direction: SortDirection, ps: seq<Value>)
    ensures var r := RenderOrderBy(d, NewOrderByClause(column, direction), ps);
      if column == "" then r == Rendered("", ps)
      else
        var interned := Intern(d, ps, StringValue(column));
        r == Rendered(interned.placeholder + " ASC", interned.params) && StringValue(column) in r.params
  {
  }

  /** The two directions a caller can ask for give the same clause. */
  lemma OrderByIgnoresDirection(column: string)
    ensures NewOrderByClause(column, Descending) == NewOrderByClause(column, Ascending)
    ensures GetOrderByValue(NewOrderByClause(column, Descending).sortDirection) != GetOrderByValue(Descending)
  {
  }

  /** The direction words: ASC, DESC and nothing for any other number. */
  lemma OrderByValues(sd: SortDirection)
    ensures GetOrderByValue(Ascending) == "ASC" && GetOrderByValue(Descending) == "DESC"
    ensures sd != Ascending && sd != Descending ==> GetOrderByValue(sd) == ""
  {
  }
}

/** Reading a LIMIT fragment back, and the rendered examples the tests pin down. */
module ClauseExamples {
  import opened Wrappers
  import opened Values
  import opened Decimal
  import opened Text
  import opened Dialects
  import opened Params
  import opened Clauses
  import opened ClauseFacts

  /** The position of the first space in s, if any. */
  function FirstSpace(s: string): (r: Option<nat>)
    ensures r.Some? ==> r.value < |s| && s[r.value] == ' ' && forall i :: 0 <= i < r.value ==> s[i] != ' '
    ensures r.None? ==> forall i :: 0 <= i < |s| ==> s[i] != ' '
  {
    if s == [] then None
    else if s[0] == ' ' then Some(0)
    else
      match FirstSpace(s[1..])
      case Some(k) => Some(k + 1)
      case None => None
  }

  /** Reads " LIMIT n" or " LIMIT n OFFSET m" back into (n, m), with m = 0 when absent. */
  function ParseLimit(s: string): Option<(int, int)>
  {
    var keyword := " LIMIT ";
    if |s| < |keyword| || s[..|keyword|] != keyword then None
    else
      var rest := s[|keyword|..];
      match FirstSpace(rest)
      case None =>
        (match ParseInt(rest)
         case Some(n) => Some((n, 0))
         case None => None)
      case Some(i) =>
        var tail := rest[i..];
        if |tail| < 8 || tail[..8] != " OFFSET " then None
        else
          match (ParseInt(rest[..i]), ParseInt(tail[8..]))
          case (Some(n), Some(m)) => Some((n, m))
          case _ => None
  }

  predicate NoSpace(s: string)
  {
    forall i :: 0 <= i < |s| ==> s[i] != ' '
  }

  lemma ParseLimitCount(count: string)
    requires NoSpace(count)
    ensures ParseLimit(" LIMIT " + count) ==
      match ParseInt(count) case Some(n) => Some((n, 0)) case None => None
  {
    var s := " LIMIT " + count;
    assert s[..7] == " LIMIT ";
    assert s[7..] == count;
  }

  lemma ParseLimitCountOffset(count: string, off: string)
    requires NoSpace(count)
    ensures ParseLimit(" LIMIT " + count + " OFFSET " + off) ==
      match (ParseInt(count), ParseInt(off)) case (Some(n), Some(m)) => Some((n, m)) case _ => None
  {
    var s := " LIMIT " + count + " OFFSET " + off;
    assert s[..7] == " LIMIT ";
    var rest := s[7..];
    assert rest == count + " OFFSET " + off;
    assert rest[|count|] == ' ';
    assert forall i :: 0 <= i < |count| ==> rest[i] == count[i];
    assert FirstSpace(rest) == Some(|count|);
    assert rest[..|count|] == count;
    assert rest[|count|..] == " OFFSET " + off;
    assert (" OFFSET " + off)[..8] == " OFFSET ";
    assert (" OFFSET " + off)[8..] == off;
  }

  /**
   * The LIMIT fragment carries the row count, and carries the offset exactly when it is
   * positive.
   */
  lemma LimitTextRoundTrip(l: LimitClause)
    ensures ParseLimit(LimitText(l)) == Some((l.rowCount as int, if l.offset > 0 then l.offset as int else 0))
  {
    var count := IntToString(l.rowCount as int);
    IntToStringHasNoSpace(l.rowCount as int);
    ParseIntToString(l.rowCount as int);
    if l.offset > 0 {
      var off := IntToString(l.offset as int);
      ParseIntToString(l.offset as int);
      assert LimitText(l) == " LIMIT " + count + " OFFSET " + off;
      ParseLimitCountOffset(count, off);
    } else {
      assert LimitText(l) == " LIMIT " + count;
      ParseLimitCount(count);
    }
  }

  /** LimitClause(25, 5) and LimitClause(25, 0). */
  lemma LimitExamples()
    ensures LimitText(NewLimitClause(25, 5)) == " LIMIT 25 OFFSET 5"
    ensures LimitText(NewLimitClause(25, 0)) == " LIMIT 25"
  {
    assert IntToString(25) == "25" by {
      assert NatToString(2) == "2";
    }
    assert IntToString(5) == "5";
  }

  function IntValue(n: int): Value
  {
    Value(Plain(Int), Num(n))
  }

  /** The zero time.Time value. */
  function ZeroTime(): Value
  {
    Value(Plain(Struct), Opaque(0))
  }

  /** A placeholder-free fragment: no '%' anywhere. */
  predicate NoPercent(s: string)
  {
    forall i :: 0 <= i < |s| ==> s[i] != '%'
  }

  /** A filter on a new value takes the next placeholder number. */
  lemma NewValueFilter(column: string, operator: string, template: string, pre: string, post: string,
                       v: Value, ps: seq<Value>)
    requires NoPercent(column) && NoPercent(operator) && NoPercent(pre)
    requires (if template == "" then "%s" else template) == pre + "%s" + post
    requires v !in ps
    ensures RenderFilter(Psql, NewPrimitiveFilterClause(column, operator, template, Some(v)), ps) ==
            Rendered(column + " " + operator + " " + pre + FormatParam(Psql, |ps| + 1) + post, ps + [v])
  {
    PrimitiveFilterRender(Psql, column, operator, template, pre, post, v, ps);
  }

  /** With the default template the placeholder is the third word. */
  lemma DefaultTemplateFilter(column: string, operator: string, v: Value, ps: seq<Value>)
    requires NoPercent(column) && NoPercent(operator)
    requires v !in ps
    ensures RenderFilter(Psql, NewPrimitiveFilterClause(column, operator, "", Some(v)), ps) ==
            Rendered(column + " " + operator + " " + FormatParam(Psql, |ps| + 1), ps + [v])
  {
    NewValueFilter(column, operator, "", "", "", v, ps);
    var head := column + " " + operator + " ";
    assert head + "" + FormatParam(Psql, |ps| + 1) + "" == head + FormatParam(Psql, |ps| + 1);
  }

  lemma PlaceholdersOneToFour()
    ensures FormatParam(Psql, 1) == "$1" && FormatParam(Psql, 2) == "$2"
    ensures FormatParam(Psql, 3) == "$3" && FormatParam(Psql, 4) == "$4"
  {
  }

  lemma FragmentsHaveNoPercent()
    ensures NoPercent("cool") && NoPercent(">") && NoPercent("week") && NoPercent("EXTRACT(WEEK FROM ")
    ensures NoPercent("we") && NoPercent("LIKE") && NoPercent("UCASE(")
    ensures NoPercent("time") && NoPercent("<") && NoPercent("name") && NoPercent("=")
  {
  }

  /** "cool > %s" bound to 42 renders as "cool > $1" and records [42]. */
  lemma PrimitiveFilterExample(ps: seq<Value>)
    requires ps == []
    ensures RenderFilter(Psql, NewPrimitiveFilterClause("cool", ">", "", Some(IntValue(42))), ps) ==
            Rendered("cool" + " " + ">" + " " + "$1", [IntValue(42)])
  {
    FragmentsHaveNoPercent();
    PlaceholdersOneToFour();
    DefaultTemplateFilter("cool", ">", IntValue(42), ps);
  }

  /** A custom template keeps its text around the placeholder: "week > EXTRACT(WEEK FROM $1)". */
  lemma CustomTemplateExample(ps: seq<Value>, template: string)
    requires ps == [] && template == "EXTRACT(WEEK FROM " + "%s" + ")"
    ensures RenderFilter(Psql, NewPrimitiveFilterClause("week", ">", template, Some(ZeroTime())), ps) ==
            Rendered("week" + " " + ">" + " " + "EXTRACT(WEEK FROM " + "$1" + ")", [ZeroTime()])
  {
    FragmentsHaveNoPercent();
    PlaceholdersOneToFour();
    NewValueFilter("week", ">", template, "EXTRACT(WEEK FROM ", ")", ZeroTime(), ps);
  }

  function V1(): Value { IntValue(42) }
  function V2(): Value { StringValue("bleh") }
  function V3(): Value { ZeroTime() }
  function V4(): Value { StringValue("Dovahkiin") }
  function F1(): Clause { Filter(NewPrimitiveFilterClause("cool", ">", "", Some(V1()))) }
  function F2(): Clause { Filter(NewPrimitiveFilterClause("we", "LIKE", "UCASE(" + "%s" + ")", Some(V2()))) }
  function F3(): Clause { Filter(NewPrimitiveFilterClause("time", "<", "", Some(V3()))) }
  function F4(): Clause { Filter(NewPrimitiveFilterClause("name", "=", "", Some(V4()))) }

  /** The rendered children, each a run of words: "cool > $1", "we LIKE UCASE($2)", ... */
  function T1(): string { "cool" + " " + ">" + " " + "$1" }
  function T2(): string { "we" + " " + "LIKE" + " " + "UCASE(" + "$2" + ")" }
  function T3(): string { "time" + " " + "<" + " " + "$3" }
  function T4(): string { "name" + " " + "=" + " " + "$4" }

  /** (time < … OR name = …), the inner tree of clause_test.go. */
  function OrTree(): CompoundClause
  {
    AddClause(AddClause(NewCompoundClause("OR"), F3()), F4())
  }

  /** The nested tree of clause_test.go. */
  function AndTree(): CompoundClause
  {
    AddClause(AddClause(AddClause(NewCompoundClause("AND"), F1()), F2()), Compound(OrTree()))
  }

  lemma F1Example(ps: seq<Value>)
    requires ps == []
    ensures RenderClause(Psql, F1(), ps) == Rendered(T1(), [V1()])
  {
    PrimitiveFilterExample(ps);
  }

  lemma F2Example(ps: seq<Value>)
    requires ps == [V1()]
    ensures RenderClause(Psql, F2(), ps) == Rendered(T2(), [V1(), V2()])
  {
    FragmentsHaveNoPercent();
    PlaceholdersOneToFour();
    NewValueFilter("we", "LIKE", "UCASE(" + "%s" + ")", "UCASE(", ")", V2(), ps);
  }

  lemma F3Example(ps: seq<Value>)
    requires ps == [V1(), V2()]
    ensures RenderClause(Psql, F3(), ps) == Rendered(T3(), [V1(), V2(), V3()])
  {
    FragmentsHaveNoPercent();
    PlaceholdersOneToFour();
    DefaultTemplateFilter("time", "<", V3(), ps);
  }

  lemma F4Example(ps: seq<Value>)
    requires ps == [V1(), V2(), V3()]
    ensures RenderClause(Psql, F4(), ps) == Rendered(T4(), [V1(), V2(), V3(), V4()])
  {
    FragmentsHaveNoPercent();
    PlaceholdersOneToFour();
    DefaultTemplateFilter("name", "=", V4(), ps);
  }

  /** Two children: "(first sep second)", the second starting from the first's list. */
  lemma TwoChildren(d: Dialect, op: string, sep: string, c1: Clause, c2: Clause, ps: seq<Value>)
    requires sep == " " + op + " "
    ensures var r1 := RenderClause(d, c1, ps);
      var r2 := RenderClause(d, c2, r1.params);
      RenderCompound(d, CompoundClause([c1, c2], op), ps) ==
      Rendered("(" + (r1.text + sep + r2.text) + ")", r2.params)
  {
    var r1 := RenderClause(d, c1, ps);
    var r2 := RenderClause(d, c2, r1.params);
    PredicatesSnoc(d, [], c1, ps);
    assert [] + [c1] == [c1] && [] + [r1.text] == [r1.text];
    PredicatesSnoc(d, [c1], c2, ps);
    assert [c1] + [c2] == [c1, c2] && [r1.text] + [r2.text] == [r1.text, r2.text];
    JoinTwo(r1.text, r2.text, sep);
  }

  /** Three children: "(first sep second sep third)", each starting from the list before it. */
  lemma ThreeChildren(d: Dialect, op: string, sep: string, c1: Clause, c2: Clause, c3: Clause, ps: seq<Value>)
    requires sep == " " + op + " "
    ensures var r1 := RenderClause(d, c1, ps);
      var r2 := RenderClause(d, c2, r1.params);
      var r3 := RenderClause(d, c3, r2.params);
      RenderCompound(d, CompoundClause([c1, c2, c3], op), ps) ==
      Rendered("(" + (r1.text + sep + r2.text + sep + r3.text) + ")", r3.params)
  {
    var r1 := RenderClause(d, c1, ps);
    var r2 := RenderClause(d, c2, r1.params);
    var r3 := RenderClause(d, c3, r2.params);
    PredicatesSnoc(d, [], c1, ps);
    assert [] + [c1] == [c1] && [] + [r1.text] == [r1.text];
    PredicatesSnoc(d, [c1], c2, ps);
    assert [c1] + [c2] == [c1, c2] && [r1.text] + [r2.text] == [r1.text, r2.text];
    PredicatesSnoc(d, [c1, c2], c3, ps);
    assert [c1, c2] + [c3] == [c1, c2, c3] && [r1.text, r2.text] + [r3.text] == [r1.text, r2.text, r3.text];
    var texts := [r1.text, r2.text, r3.text];
    assert texts[..2] == [r1.text, r2.text];
    assert Join(texts, sep) == Join([r1.text, r2.text], sep) + sep + r3.text;
    JoinTwo(r1.text, r2.text, sep);
  }

  /** "(time < $3 OR name = $4)" */
  function OrText(): string { "(" + (T3() + " OR " + T4()) + ")" }

  lemma OrTreeExample(ps: seq<Value>)
    requires ps == [V1(), V2()]
    ensures RenderCompound(Psql, OrTree(), ps) == Rendered(OrText(), [V1(), V2(), V3(), V4()])
  {
    F3Example(ps);
    F4Example([V1(), V2(), V3()]);
    assert OrTree() == CompoundClause([F3(), F4()], "OR");
    TwoChildren(Psql, "OR", " OR ", F3(), F4(), ps);
  }

  lemma JoinTwo(a: string, b: string, sep: string)
    ensures Join([a, b], sep) == a + sep + b
  {
    assert [a, b][..1] == [a];
  }

  /**
   * The nested tree of clause_test.go renders as
   * "(cool > $1 AND we LIKE UCASE($2) AND (time < $3 OR name = $4))": placeholders are
   * numbered depth first, left to right, and the values are recorded in that order.
   */
  lemma NestedCompoundExample(ps: seq<Value>)
    requires ps == []
    ensures RenderCompound(Psql, AndTree(), ps) ==
            Rendered("(" + (T1() + " AND " + T2() + " AND " + OrText()) + ")", [V1(), V2(), V3(), V4()])
  {
    assert AndTree() == CompoundClause([F1(), F2(), Compound(OrTree())], "AND");
    AndTreeChildren(ps);
  }

  lemma AndTreeChildren(ps: seq<Value>)
    requires ps == []
    ensures RenderCompound(Psql, CompoundClause([F1(), F2(), Compound(OrTree())], "AND"), ps) ==
            Rendered("(" + (T1() + " AND " + T2() + " AND " + OrText()) + ")", [V1(), V2(), V3(), V4()])
  {
    F1Example(ps);
    F2Example([V1()]);
    OrTreeExample([V1(), V2()]);
    ThreeChildren(Psql, "AND", " AND ", F1(), F2(), Compound(OrTree()), ps);
  }
}
