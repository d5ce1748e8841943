/** SQL dialects: the struct tag that names columns, and the placeholder syntax. */
module Dialects {
  import opened Wrappers
  import opened Decimal

  /** The Dialect interface has one implementation, PostgreSQL's (Psql()). */
  datatype Dialect = Psql

  /** The struct tag key under which a model's fields name their columns. */
  function StructTag(d: Dialect): string
  {
    match d
    case Psql => "psql"
  }

  /** The psql dialect reads the `psql:"…"` tags of a model's fields. */
  lemma StructTagIsPsql()
    ensures StructTag(Psql) == "psql"
  {
  }

  /** The placeholder for parameter n: "$" and then n in decimal. */
  function FormatParam(d: Dialect, n: int): string
  {
    "$" + IntToString(n)
  }

  /**
   * A placeholder is '$' and then the number's decimal digits (a '-' first for a negative
   * number), and the number can be read back from them.
   */
  lemma FormatParamRoundTrip(d: Dialect, n: int)
    ensures var r := FormatParam(d, n);
      |r| >= 2 && r[0] == '$' && ParseInt(r[1..]) == Some(n) &&
      (n >= 0 ==> AllDigits(r[1..]))
  {
    ParseIntToString(n);
    assert FormatParam(d, n)[1..] == IntToString(n);
  }

  /** Distinct parameter numbers get distinct placeholders. */
  lemma FormatParamInjective(d: Dialect, a: int, b: int)
    ensures FormatParam(d, a) == FormatParam(d, b) ==> a == b
  {
    FormatParamRoundTrip(d, a);
    FormatParamRoundTrip(d, b);
    if FormatParam(d, a) == FormatParam(d, b) {
      assert FormatParam(d, a)[1..] == FormatParam(d, b)[1..];
    }
  }

  /** The first parameter of a PostgreSQL statement is written $1. */
  lemma FormatParamOne()
    ensures FormatParam(Psql, 1) == "$1"
  {
  }
}
