/**
 * The parameter list of one Build pass: bound values in first-use order, interned by a
 * linear scan that hands back dialect placeholders.
 */
module Params {
  import opened Values
  import opened Dialects
  import opened Wrappers
  import opened Decimal

  /** The position of the first entry equal to v. */
  function IndexOf(ps: seq<Value>, v: Value): (k: nat)
    requires v in ps
    ensures k < |ps| && ps[k] == v && v !in ps[..k]
  {
    if ps[0] == v then 0
    else
      assert ps[1..][..IndexOf(ps[1..], v)] == ps[1..1 + IndexOf(ps[1..], v)];
      1 + IndexOf(ps[1..], v)
  }

  /** Only the first occurrence satisfies IndexOf's contract. */
  lemma IndexOfUnique(ps: seq<Value>, v: Value, k: nat)
    requires k < |ps| && ps[k] == v && v !in ps[..k]
    ensures IndexOf(ps, v) == k
  {
  }

  predicate NoDuplicates(ps: seq<Value>)
  {
    forall i, j :: 0 <= i < j < |ps| ==> ps[i] != ps[j]
  }

  /** The list after an interning step and the placeholder it handed back. */
  datatype Interned = Interned(params: seq<Value>, placeholder: string)

  /**
   * RecordValueAndReturnParam as a function of the list: a value already present leaves the
   * list alone and yields the placeholder of its 0-based position; a new value is appended
   * and yields the placeholder of the new length.
   */
  function Intern(d: Dialect, ps: seq<Value>, v: Value): Interned
  {
    if v in ps then Interned(ps, FormatParam(d, IndexOf(ps, v)))
    else Interned(ps + [v], FormatParam(d, |ps| + 1))
  }

  /**
   * An interning step keeps the list free of duplicates, extends it by at most one entry
   * and leaves the value in it.
   */
  lemma InternKeepsList(d: Dialect, ps: seq<Value>, v: Value)
    requires NoDuplicates(ps)
    ensures var r := Intern(d, ps, v);
      NoDuplicates(r.params) && ps <= r.params && |r.params| <= |ps| + 1 && v in r.params
  {
  }

  /** A new value lands at the end and is named by its 1-based position. */
  lemma InternNewValue(d: Dialect, ps: seq<Value>, v: Value)
    requires v !in ps
    ensures var r := Intern(d, ps, v);
      r.params == ps + [v] && ParseInt(r.placeholder[1..]) == Some(|r.params|)
  {
    FormatParamRoundTrip(d, |ps| + 1);
  }

  /**
   * A value already present leaves the list unchanged and is named by its 0-based position,
   * so the placeholder denotes the entry before it ($0 denotes no parameter at all).
   */
  lemma InternPresentValue(d: Dialect, ps: seq<Value>, v: Value, k: nat)
    requires NoDuplicates(ps) && k < |ps| && ps[k] == v
    ensures var r := Intern(d, ps, v);
      r.params == ps && r.placeholder == FormatParam(d, k) &&
      (k == 0 || ps[k - 1] != v)
  {
    IndexOfUnique(ps, v, k);
  }

  /**
   * Interning the same value twice in a row hands out two different placeholders: the
   * 1-based one when it is appended, then the 0-based one.
   */
  lemma RepeatedValueGetsOtherPlaceholder(d: Dialect, ps: seq<Value>, v: Value)
    requires v !in ps
    ensures var first := Intern(d, ps, v);
      var second := Intern(d, first.params, v);
      second.params == first.params &&
      first.placeholder == FormatParam(d, |ps| + 1) &&
      second.placeholder == FormatParam(d, |ps|) &&
      second.placeholder != first.placeholder
  {
    var ps' := ps + [v];
    assert ps'[..|ps|] == ps;
    IndexOfUnique(ps', v, |ps|);
    FormatParamInjective(d, |ps|, |ps| + 1);
  }

  /** A ParamList owned by one Build pass. */
  class ParamList {
    var params: seq<Value>
    const dialect: Dialect

    /** NewParamList: an empty list for the dialect. */
    constructor (dialect: Dialect)
      ensures this.dialect == dialect && params == []
    {
      this.dialect := dialect;
      params := [];
    }

    /** Scans for an equal value; appends the value when there is none. */
    method RecordValueAndReturnParam(v: Value) returns (placeholder: string)
      modifies this
      ensures Interned(params, placeholder) == Intern(dialect, old(params), v)
    {
      var k := 0;
      while k < |params|
        invariant k <= |params| && params == old(params)
        invariant v !in params[..k]
      {
        if params[k] == v {
          IndexOfUnique(params, v, k);
          return FormatParam(dialect, k);
        }
        assert params[..k + 1] == params[..k] + [params[k]];
        k := k + 1;
      }
      assert params[..k] == params;
      params := params + [v];
      return FormatParam(dialect, |params|);
    }

    /** The values in first-use order. */
    method GetParamList() returns (ps: seq<Value>)
      ensures ps == params
    {
      return params;
    }
  }
}
