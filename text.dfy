/**
 * The string operations the builder relies on: strings.Join, Go's byte-wise string
 * ordering (used by sort.Strings) and fmt.Sprintf with one string argument.
 */
module Text {
  import opened Wrappers

  /** strings.Join: the parts separated by sep; "" for no parts. */
  function Join(parts: seq<string>, sep: string): string
  {
    if |parts| == 0 then ""
    else if |parts| == 1 then parts[0]
    else Join(parts[..|parts| - 1], sep) + sep + parts[|parts| - 1]
  }

  /**
   * Go's a < b on strings. Go compares UTF-8 bytes; for Unicode scalar values the
   * byte order of UTF-8 encodings agrees with the order of code points compared here.
   */
  predicate LexLess(a: string, b: string)
  {
    if |a| == 0 then |b| > 0
    else if |b| == 0 then false
    else if a[0] != b[0] then a[0] < b[0]
    else LexLess(a[1..], b[1..])
  }

  lemma {:induction false} LexLessIrreflexive(a: string)
    ensures !LexLess(a, a)
  {
    if |a| > 0 {
      LexLessIrreflexive(a[1..]);
    }
  }

  lemma {:induction false} LexLessTransitive(a: string, b: string, c: string)
    requires LexLess(a, b) && LexLess(b, c)
    ensures LexLess(a, c)
  {
    if |a| > 0 && |b| > 0 && |c| > 0 && a[0] == b[0] && b[0] == c[0] {
      LexLessTransitive(a[1..], b[1..], c[1..]);
    }
  }

  lemma {:induction false} LexLessTotal(a: string, b: string)
    ensures a == b || LexLess(a, b) || LexLess(b, a)
  {
    if |a| > 0 && |b| > 0 && a[0] == b[0] {
      LexLessTotal(a[1..], b[1..]);
      if a[1..] == b[1..] {
        assert a == [a[0]] + a[1..] && b == [b[0]] + b[1..];
      }
    }
  }

  lemma {:induction false} LexLessAsymmetric(a: string, b: string)
    requires LexLess(a, b)
    ensures !LexLess(b, a)
  {
    if |a| > 0 && |b| > 0 && a[0] == b[0] {
      LexLessAsymmetric(a[1..], b[1..]);
    }
  }

  /** Strictly increasing under Go's string order; hence also free of duplicates. */
  predicate StrictlySorted(s: seq<string>)
  {
    forall i, j :: 0 <= i < j < |s| ==> LexLess(s[i], s[j])
  }

  /** The "%s" verb starts at position i of t. */
  predicate VerbAt(t: string, i: int)
  {
    0 <= i && i + 1 < |t| && t[i] == '%' && t[i + 1] == 's'
  }

  /** The position of the first "%s" in t, if any. */
  function FirstVerb(t: string): (r: Option<nat>)
    ensures r.Some? ==> VerbAt(t, r.value) && forall i :: 0 <= i < r.value ==> !VerbAt(t, i)
    ensures r.None? ==> forall i :: 0 <= i < |t| ==> !VerbAt(t, i)
  {
    if |t| < 2 then None
    else if t[0] == '%' && t[1] == 's' then Some(0)
    else
      assert !VerbAt(t, 0);
      assert forall i :: 1 <= i < |t| ==> (VerbAt(t, i) <==> VerbAt(t[1..], i - 1));
      match FirstVerb(t[1..])
      case Some(k) => Some(k + 1)
      case None => None
  }

  /**
   * fmt.Sprintf(template, arg) for one string argument, on templates whose only '%' is
   * at most one "%s" verb: that verb is replaced by arg, and a template with no '%' at all
   * gets Go's "%!(EXTRA string=…)" suffix. Any other '%' ("%%", another verb, a second
   * "%s") is kept as it stands here, whereas fmt would interpret it.
   */
  function Sprintf1(template: string, arg: string): string
  {
    match FirstVerb(template)
    case Some(i) => template[..i] + arg + template[i + 2..]
    case None => template + "%!(EXTRA string=" + arg + ")"
  }

  /** The template's single slot is replaced by the argument, and nothing else changes. */
  lemma Sprintf1FillsSlot(pre: string, post: string, arg: string)
    requires forall i :: 0 <= i < |pre| ==> pre[i] != '%'
    ensures Sprintf1(pre + "%s" + post, arg) == pre + arg + post
  {
    var t := pre + "%s" + post;
    assert VerbAt(t, |pre|);
    assert forall i :: 0 <= i < |pre| ==> t[i] == pre[i] && !VerbAt(t, i);
    assert t[..|pre|] == pre;
    assert t[|pre| + 2..] == post;
  }
}
