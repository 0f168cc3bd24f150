/** Sequences built by keeping the elements of a fixed list that pass a test, and the facts about them. */
module Seqs {

  /** The elements of `xs` that satisfy `keep`, in their original order. */
  function Filter<T(==,!new)>(xs: seq<T>, keep: T -> bool): (r: seq<T>)
    ensures |r| <= |xs|
    ensures forall x :: x in r <==> x in xs && keep(x)
  {
    if xs == [] then []
    else (if keep(xs[0]) then [xs[0]] else []) + Filter(xs[1..], keep)
  }

  /** No element occurs twice. */
  predicate NoDuplicates<T(==,!new)>(xs: seq<T>) {
    forall i, j :: 0 <= i < j < |xs| ==> xs[i] != xs[j]
  }

  /** `r` is `xs` with some elements deleted: every element of `r` occurs in `xs`, in the same order. */
  predicate IsSubsequence<T(==,!new)>(r: seq<T>, xs: seq<T>)
    decreases |xs|
  {
    if r == [] then true
    else if xs == [] then false
    else if r[0] == xs[0] then IsSubsequence(r[1..], xs[1..])
    else IsSubsequence(r, xs[1..])
  }

  /** Concatenation of a list of sequences. */
  function Flatten<T>(xss: seq<seq<T>>): (r: seq<T>)
  {
    if xss == [] then [] else xss[0] + Flatten(xss[1..])
  }

  lemma ConcatAssoc<T>(a: seq<T>, b: seq<T>, c: seq<T>)
    ensures a + (b + c) == a + b + c
  {
  }

  /** Filtering a sequence with a given first element: that element first, if kept, then the rest filtered. */
  lemma FilterCons<T(!new)>(x: T, xs: seq<T>, keep: T -> bool)
    ensures Filter([x] + xs, keep) == (if keep(x) then [x] else []) + Filter(xs, keep)
  {
    assert ([x] + xs)[1..] == xs;
  }

  /** `[x]` when `x` is kept, otherwise empty. */
  function Kept<T>(x: T, keep: T -> bool): seq<T> {
    if keep(x) then [x] else []
  }

  lemma Filter1<T(!new)>(x: T, keep: T -> bool)
    ensures Filter([x], keep) == Kept(x, keep)
  {
    FilterCons(x, [], keep);
    assert [x] + [] == [x];
  }

  lemma Filter2<T(!new)>(x: T, y: T, keep: T -> bool)
    ensures Filter([x, y], keep) == Kept(x, keep) + Kept(y, keep)
  {
    FilterCons(x, [y], keep);
    assert [x] + [y] == [x, y];
    Filter1(y, keep);
  }

  lemma Filter3<T(!new)>(x: T, y: T, z: T, keep: T -> bool)
    ensures Filter([x, y, z], keep) == Kept(x, keep) + Kept(y, keep) + Kept(z, keep)
  {
    FilterCons(x, [y, z], keep);
    assert [x] + [y, z] == [x, y, z];
    Filter2(y, z, keep);
    ConcatAssoc(Kept(x, keep), Kept(y, keep), Kept(z, keep));
  }

  lemma Filter4<T(!new)>(w: T, x: T, y: T, z: T, keep: T -> bool)
    ensures Filter([w, x, y, z], keep) == Kept(w, keep) + Kept(x, keep) + Kept(y, keep) + Kept(z, keep)
  {
    FilterCons(w, [x, y, z], keep);
    assert [w] + [x, y, z] == [w, x, y, z];
    Filter3(x, y, z, keep);
    ConcatAssoc(Kept(w, keep), Kept(x, keep) + Kept(y, keep), Kept(z, keep));
    ConcatAssoc(Kept(w, keep), Kept(x, keep), Kept(y, keep));
  }

  lemma {:induction false} FilterIsSubsequence<T(!new)>(xs: seq<T>, keep: T -> bool)
    ensures IsSubsequence(Filter(xs, keep), xs)
  {
    if xs != [] {
      var r := Filter(xs, keep);
      FilterIsSubsequence(xs[1..], keep);
      if keep(xs[0]) {
        assert r == [xs[0]] + Filter(xs[1..], keep);
        assert r[1..] == Filter(xs[1..], keep);
      } else {
        assert r == Filter(xs[1..], keep);
        if r != [] {
          assert r[0] in r;
          assert r[0] != xs[0];
        }
      }
    }
  }

  lemma {:induction false} FilterNoDuplicates<T(!new)>(xs: seq<T>, keep: T -> bool)
    requires NoDuplicates(xs)
    ensures NoDuplicates(Filter(xs, keep))
  {
    if xs != [] {
      var rest := Filter(xs[1..], keep);
      assert NoDuplicates(xs[1..]) by {
        forall i, j | 0 <= i < j < |xs[1..]| ensures xs[1..][i] != xs[1..][j] {
          assert xs[1..][i] == xs[i + 1] && xs[1..][j] == xs[j + 1];
        }
      }
      FilterNoDuplicates(xs[1..], keep);
      if keep(xs[0]) {
        var r := [xs[0]] + rest;
        assert xs[0] !in xs[1..] by {
          forall k | 0 <= k < |xs[1..]| ensures xs[1..][k] != xs[0] {
            assert xs[1..][k] == xs[k + 1];
          }
        }
        assert xs[0] !in rest;
        forall i, j | 0 <= i < j < |r| ensures r[i] != r[j] {
          if i == 0 {
            assert r[j] == rest[j - 1];
            assert r[j] in rest;
          } else {
            assert r[i] == rest[i - 1] && r[j] == rest[j - 1];
          }
        }
      }
    }
  }
}
