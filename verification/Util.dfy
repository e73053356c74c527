/** Small shared vocabulary: optional values, filtering of sequences, trimming of strings. */
module Util {

  datatype Option<+T> = None | Some(value: T)

  /** The elements of s that satisfy keep, in their original order. */
  function Filter<T(!new)>(keep: T -> bool, s: seq<T>): (r: seq<T>)
    ensures |r| <= |s|
    ensures forall x :: x in r <==> x in s && keep(x)
  {
    if s == [] then []
    else if keep(s[0]) then [s[0]] + Filter(keep, s[1..])
    else Filter(keep, s[1..])
  }

  lemma FilterCons<T(!new)>(keep: T -> bool, x: T, s: seq<T>)
    ensures Filter(keep, [x] + s) == (if keep(x) then [x] else []) + Filter(keep, s)
  {
    assert ([x] + s)[1..] == s;
  }

  lemma Regrouped<T>(a: seq<T>, b: seq<T>, c: seq<T>)
    ensures a + (b + c) == a + b + c
  {
  }

  lemma {:induction false} FilterConcat<T(!new)>(keep: T -> bool, a: seq<T>, b: seq<T>)
    ensures Filter(keep, a + b) == Filter(keep, a) + Filter(keep, b)
  {
    if a == [] {
      assert a + b == b;
    } else {
      FilterConcat(keep, a[1..], b);
      FilterCons(keep, a[0], a[1..] + b);
      Regrouped([a[0]], a[1..], b);
      assert [a[0]] + a[1..] == a;
    }
  }

  ghost predicate Distinct<T(!new)>(s: seq<T>) {
    forall i, j :: 0 <= i < j < |s| ==> s[i] != s[j]
  }

  lemma {:induction false} FilterSame<T(!new)>(keep: T -> bool, keep': T -> bool, s: seq<T>)
    requires forall x :: x in s ==> keep(x) == keep'(x)
    ensures Filter(keep, s) == Filter(keep', s)
  {
    if s != [] {
      FilterSame(keep, keep', s[1..]);
    }
  }

  lemma {:induction false} FilterAll<T(!new)>(keep: T -> bool, s: seq<T>)
    requires forall x :: x in s ==> keep(x)
    ensures Filter(keep, s) == s
  {
    if s != [] {
      FilterAll(keep, s[1..]);
    }
  }

  /** Two filters that differ on one element x only, which the second drops. */
  lemma {:induction false} FilterDrops<T(!new)>(keep: T -> bool, keep': T -> bool, other: T -> bool, s: seq<T>)
    requires forall y :: y in s ==> keep'(y) == (keep(y) && other(y))
    ensures Filter(keep', s) == Filter(other, Filter(keep, s))
  {
    if s != [] {
      FilterDrops(keep, keep', other, s[1..]);
    }
  }

  lemma {:induction false} FilterDistinct<T(!new)>(keep: T -> bool, s: seq<T>)
    requires Distinct(s)
    ensures Distinct(Filter(keep, s))
  {
    if s != [] {
      FilterDistinct(keep, s[1..]);
    }
  }

  /** Dropping the element at i from a list without repetitions. */
  lemma {:induction false} FilterOut<T(!new)>(other: T -> bool, s: seq<T>, i: nat)
    requires Distinct(s) && i < |s|
    requires forall k :: 0 <= k < |s| ==> other(s[k]) == (k != i)
    ensures Filter(other, s) == s[..i] + s[i + 1..]
    decreases i
  {
    var rest := s[1..];
    if i == 0 {
      FilterAll(other, rest);
    } else {
      FilterOut(other, rest, i - 1);
      assert s[..i] == [s[0]] + rest[..i - 1];
      assert s[i + 1..] == rest[i..];
    }
  }

  /** The white space and line terminators that String.prototype.trim removes. */
  predicate Space(c: char) {
    || c == ' ' || '\U{9}' <= c <= '\U{D}' || c == '\U{A0}' || c == '\U{1680}' || '\U{2000}' <= c <= '\U{200A}'
    || c == '\U{2028}' || c == '\U{2029}' || c == '\U{202F}' || c == '\U{205F}' || c == '\U{3000}' || c == '\U{FEFF}'
  }

  /** String.prototype.trim. */
  function Trim(s: string): (r: string)
    ensures |r| <= |s|
  {
    if s == "" then ""
    else if Space(s[0]) then Trim(s[1..])
    else if Space(s[|s| - 1]) then Trim(s[..|s| - 1])
    else s
  }
}
