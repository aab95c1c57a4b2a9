/** Sequence helpers standing for `Array.prototype.filter` and `Array.from(new Set(...))`. */
module Seqs {

  /** `a` is `b` with some elements taken out and the rest left in their order. */
  ghost predicate IsSubseq<T>(a: seq<T>, b: seq<T>)
    decreases |b|
  {
    if a == [] then true
    else if b == [] then false
    else if a[0] == b[0] then IsSubseq(a[1..], b[1..])
    else IsSubseq(a, b[1..])
  }

  /** How many elements of `s` satisfy `keep`. */
  function Count<T>(s: seq<T>, keep: T -> bool): (n: nat)
    ensures n <= |s|
  {
    if s == [] then 0
    else (if keep(s[0]) then 1 else 0) + Count(s[1..], keep)
  }

  /** `s.filter(keep)`: the elements that pass, in their original order. */
  function Filter<T(==)>(s: seq<T>, keep: T -> bool): (r: seq<T>)
    ensures |r| == Count(s, keep)
    ensures forall x :: x in r ==> keep(x)
    ensures forall i :: 0 <= i < |s| && keep(s[i]) ==> s[i] in r
    ensures IsSubseq(r, s)
  {
    if s == [] then []
    else
      var rest := Filter(s[1..], keep);
      if keep(s[0]) then
        assert ([s[0]] + rest)[1..] == rest;
        [s[0]] + rest
      else
        assert rest != [] ==> rest[0] != s[0];
        rest
  }

  /** When every element passes, filtering changes nothing. */
  lemma {:induction false} FilterKeepsAll<T>(s: seq<T>, keep: T -> bool)
    requires forall i :: 0 <= i < |s| ==> keep(s[i])
    ensures Filter(s, keep) == s
  {
    if s != [] {
      FilterKeepsAll(s[1..], keep);
      assert s == [s[0]] + s[1..];
    }
  }

  /** When exactly one position fails `keep`, filtering drops exactly one element. */
  lemma {:induction false} CountAllButOne<T>(s: seq<T>, keep: T -> bool, k: nat)
    requires k < |s| && !keep(s[k])
    requires forall i :: 0 <= i < |s| && i != k ==> keep(s[i])
    ensures Count(s, keep) == |s| - 1
  {
    if k == 0 {
      CountAll(s[1..], keep);
    } else {
      CountAllButOne(s[1..], keep, k - 1);
    }
  }

  /** When every element passes, all of them are counted. */
  lemma {:induction false} CountAll<T>(s: seq<T>, keep: T -> bool)
    requires forall i :: 0 <= i < |s| ==> keep(s[i])
    ensures Count(s, keep) == |s|
  {
    if s != [] {
      CountAll(s[1..], keep);
    }
  }

  /** The position of the first occurrence of `x` in `s`. */
  function FirstIndex<T(==)>(s: seq<T>, x: T): (k: nat)
    requires x in s
    ensures k < |s| && s[k] == x && x !in s[..k]
  {
    if s[0] == x then 0
    else
      var k := 1 + FirstIndex(s[1..], x);
      assert s[..k] == [s[0]] + s[1..][..k - 1];
      k
  }

  /** The first occurrence is the only position holding `x` with no `x` before it. */
  lemma FirstIndexUnique<T>(s: seq<T>, x: T, k: nat)
    requires k < |s| && s[k] == x && x !in s[..k]
    ensures FirstIndex(s, x) == k
  {
  }

  /** Whether `x` first occurs within a prefix does not depend on what follows the prefix. */
  lemma FirstIndexInPrefix<T>(s: seq<T>, n: nat, x: T)
    requires n <= |s| && x in s[..n]
    ensures FirstIndex(s, x) == FirstIndex(s[..n], x)
  {
    var f := FirstIndex(s[..n], x);
    assert s[..n][..f] == s[..f];
    FirstIndexUnique(s, x, f);
  }

  /**
   * `r` lists every element of `s` once, in the order of first appearance in `s`.
   * The three clauses together determine `r`.
   */
  ghost predicate FirstAppearances<T>(r: seq<T>, s: seq<T>)
  {
    && (forall i, j :: 0 <= i < j < |r| ==> r[i] != r[j])
    && (forall i :: 0 <= i < |r| ==> r[i] in s)
    && (forall i :: 0 <= i < |s| ==> s[i] in r)
    && (forall i, j :: 0 <= i < j < |r| ==> FirstIndex(s, r[i]) < FirstIndex(s, r[j]))
  }

  /** The first appearances in a prefix of `s` keep their positions in `s`, and the prefix's elements all appear among them. */
  lemma FirstAppearancesOfPrefix<T>(s: seq<T>, d: seq<T>)
    requires s != [] && FirstAppearances(d, s[..|s| - 1])
    ensures forall i :: 0 <= i < |d| ==> d[i] in s && FirstIndex(s, d[i]) == FirstIndex(s[..|s| - 1], d[i]) < |s| - 1
    ensures forall i :: 0 <= i < |s| - 1 ==> s[i] in d
  {
    var n := |s| - 1;
    forall i | 0 <= i < |d| ensures d[i] in s && FirstIndex(s, d[i]) == FirstIndex(s[..n], d[i]) < n {
      FirstIndexInPrefix(s, n, d[i]);
    }
    forall i | 0 <= i < n ensures s[i] in d {
      assert s[i] == s[..n][i];
    }
  }

  /** Extending `s` by one element extends its list of first appearances when the element is new. */
  lemma FirstAppearancesStep<T>(s: seq<T>, d: seq<T>)
    requires s != [] && FirstAppearances(d, s[..|s| - 1])
    ensures FirstAppearances(if s[|s| - 1] in d then d else d + [s[|s| - 1]], s)
  {
    var n := |s| - 1;
    var x := s[n];
    FirstAppearancesOfPrefix(s, d);
    if x in d {
      assert FirstAppearances(d, s);
    } else {
      FirstIndexUnique(s, x, n);
      var r := d + [x];
      assert forall i :: 0 <= i < |d| ==> r[i] == d[i];
      assert forall i :: 0 <= i < |s| ==> s[i] in r;
      assert forall i, j :: 0 <= i < j < |r| ==> FirstIndex(s, r[i]) < FirstIndex(s, r[j]) by {
        forall i, j | 0 <= i < j < |r| ensures FirstIndex(s, r[i]) < FirstIndex(s, r[j]) {
          if j == |d| {
            assert FirstIndex(s, r[i]) < n;
          }
        }
      }
      assert FirstAppearances(r, s);
    }
  }

  /** `Array.from(new Set(s))`: every element of `s` once, in the order of first appearance. */
  function Distinct<T(==)>(s: seq<T>): (r: seq<T>)
    ensures FirstAppearances(r, s)
  {
    if s == [] then []
    else
      var n := |s| - 1;
      var d := Distinct(s[..n]);
      FirstAppearancesStep(s, d);
      if s[n] in d then d else d + [s[n]]
  }
}
