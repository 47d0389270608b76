/**
 * `Array.prototype.filter` (and Kotlin's `removeIf`, its complement), with the facts the
 * search and statistics rest on: the result keeps exactly the matching
 * elements, in their original order.
 */
module ListOps {
  import opened Text
  import opened Wrappers

  /** `a` is `b` with some elements left out, the rest in order. */
  predicate IsSubsequence<T(==,!new)>(a: seq<T>, b: seq<T>)
    decreases |b|
  {
    a == [] || (b != [] && ((a[0] == b[0] && IsSubsequence(a[1..], b[1..])) || IsSubsequence(a, b[1..])))
  }

  /** `xs.filter(p)`. */
  function Filter<T(==,!new)>(xs: seq<T>, p: T -> bool): (r: seq<T>)
    ensures |r| <= |xs|
    ensures forall x :: x in r <==> x in xs && p(x)
    ensures IsSubsequence(r, xs)
    ensures (forall i :: 0 <= i < |xs| ==> p(xs[i])) ==> r == xs
  {
    if xs == [] then []
    else if p(xs[0]) then [xs[0]] + Filter(xs[1..], p)
    else Filter(xs[1..], p)
  }

  /** Filtering distributes over concatenation, which is what "in order" means. */
  lemma {:induction false} FilterAppend<T(!new)>(a: seq<T>, b: seq<T>, p: T -> bool)
    ensures Filter(a + b, p) == Filter(a, p) + Filter(b, p)
    decreases |a|
  {
    if a == [] {
      assert a + b == b;
    } else {
      assert (a + b)[0] == a[0];
      assert (a + b)[1..] == a[1..] + b;
      FilterAppend(a[1..], b, p);
    }
  }

  /** `xs.filter(p).length`. */
  function Count<T(==,!new)>(xs: seq<T>, p: T -> bool): (n: nat)
    ensures n <= |xs|
  {
    |Filter(xs, p)|
  }

  /** Elements no two predicates share are counted at most once overall. */
  lemma {:induction false} DisjointCounts<T(!new)>(xs: seq<T>, p: T -> bool, q: T -> bool)
    requires forall x :: !(p(x) && q(x))
    ensures Count(xs, p) + Count(xs, q) <= |xs|
    decreases |xs|
  {
    if xs != [] {
      DisjointCounts(xs[1..], p, q);
    }
  }

  /** Every element satisfies `p` exactly when the count of those that do is the length. */
  lemma {:induction false} CountAll<T(!new)>(xs: seq<T>, p: T -> bool)
    ensures Count(xs, p) == |xs| <==> forall i :: 0 <= i < |xs| ==> p(xs[i])
    decreases |xs|
  {
    if xs != [] {
      CountAll(xs[1..], p);
      if p(xs[0]) {
        assert Count(xs, p) == 1 + Count(xs[1..], p);
        assert (forall i :: 0 <= i < |xs| ==> p(xs[i])) <==> (forall i :: 0 <= i < |xs[1..]| ==> p(xs[1..][i]));
      } else {
        assert Count(xs, p) == Count(xs[1..], p) <= |xs[1..]|;
      }
    }
  }

  /** The sum of `f` over the elements. */
  function Sum<T>(xs: seq<T>, f: T -> int): int
    decreases |xs|
  {
    if xs == [] then 0 else f(xs[0]) + Sum(xs[1..], f)
  }

  /** `xs.reduce((acc, x) => acc + f(x), acc)`: a left fold from `acc`. */
  function Reduce<T>(xs: seq<T>, f: T -> int, acc: int): int
    decreases |xs|
  {
    if xs == [] then acc else Reduce(xs[1..], f, acc + f(xs[0]))
  }

  /** The fold from `acc` adds the sum to `acc`; from 0 it is the sum. */
  lemma {:induction false} ReduceIsSum<T>(xs: seq<T>, f: T -> int, acc: int)
    ensures Reduce(xs, f, acc) == acc + Sum(xs, f)
    decreases |xs|
  {
    if xs != [] {
      ReduceIsSum(xs[1..], f, acc + f(xs[0]));
    }
  }

  /** A sum of non-negative terms is non-negative, and zero exactly when every term is. */
  lemma {:induction false} SumOfNonNegative<T>(xs: seq<T>, f: T -> int)
    requires forall i :: 0 <= i < |xs| ==> f(xs[i]) >= 0
    ensures Sum(xs, f) >= 0
    ensures Sum(xs, f) == 0 <==> forall i :: 0 <= i < |xs| ==> f(xs[i]) == 0
    decreases |xs|
  {
    if xs != [] {
      assert forall i :: 0 <= i < |xs[1..]| ==> f(xs[1..][i]) == f(xs[i + 1]);
      SumOfNonNegative(xs[1..], f);
      if Sum(xs, f) == 0 {
        forall i | 0 <= i < |xs| ensures f(xs[i]) == 0 {
          if i > 0 { assert xs[i] == xs[1..][i - 1]; }
        }
      }
    }
  }

  /**
   * The list pages' `onSearch`: a blank term shows the whole list; any other
   * term keeps the elements that `keep` accepts, which each page builds from
   * its match test and the lower-cased, untrimmed term.
   */
  function Search<T(==,!new)>(xs: seq<T>, term: string, keep: T -> bool): (r: seq<T>)
    ensures IsBlank(term) ==> r == xs
    ensures !IsBlank(term) ==> r == Filter(xs, keep)
    ensures IsSubsequence(r, xs)
    ensures forall x :: x in r <==> x in xs && (IsBlank(term) || keep(x))
  {
    if IsBlank(term) then
      IsSubsequenceReflexive(xs);
      xs
    else
      Filter(xs, keep)
  }

  /**
   * `xs.filter(test)` where the callback may throw (`test` gives `None`): a
   * throw on any element aborts the whole call; otherwise the elements whose
   * test is true, in order. `keep` names that test where it does not throw.
   */
  function FilterOrThrow<T(==,!new)>(xs: seq<T>, test: T -> Option<bool>, keep: T -> bool): (r: Option<seq<T>>)
    requires forall x :: test(x).Some? ==> (test(x).value <==> keep(x))
    ensures r.None? <==> exists i :: 0 <= i < |xs| && test(xs[i]).None?
    ensures r.Some? ==> r.value == Filter(xs, keep)
    decreases |xs|
  {
    if xs == [] then Some([])
    else
      match test(xs[0])
      case None => None
      case Some(hit) =>
        match FilterOrThrow(xs[1..], test, keep)
        case None =>
          assert exists i :: 1 <= i < |xs| && test(xs[i]).None? by {
            var i :| 0 <= i < |xs[1..]| && test(xs[1..][i]).None?;
            assert xs[i + 1] == xs[1..][i];
          }
          None
        case Some(rest) =>
          assert forall i :: 1 <= i < |xs| ==> xs[i] == xs[1..][i - 1];
          if hit then Some([xs[0]] + rest) else Some(rest)
  }

  lemma {:induction false} IsSubsequenceReflexive<T(!new)>(xs: seq<T>)
    ensures IsSubsequence(xs, xs)
    decreases |xs|
  {
    if xs != [] {
      IsSubsequenceReflexive(xs[1..]);
    }
  }

  /** Keeping or dropping the head of the whole keeps a subsequence a subsequence. */
  lemma KeepOrDropHead<T(!new)>(keep: bool, x: T, a: seq<T>, xs: seq<T>)
    requires IsSubsequence(a, xs)
    ensures IsSubsequence((if keep then [x] else []) + a, [x] + xs)
  {
    var b := [x] + xs;
    assert b[1..] == xs;
    if keep {
      assert ([x] + a)[1..] == a;
    } else {
      assert [] + a == a;
    }
  }

  /** `[x]` when `keep`, nothing otherwise: one conditional `push`. */
  function Pick<T>(keep: bool, x: T): seq<T> {
    if keep then [x] else []
  }

  /** Five conditional pushes, made in the order of a list, give a subsequence of it. */
  lemma {:induction false} PicksInOrder<T(!new)>(k1: bool, k2: bool, k3: bool, k4: bool, k5: bool, x1: T, x2: T, x3: T, x4: T, x5: T)
    ensures IsSubsequence(Pick(k1, x1) + (Pick(k2, x2) + (Pick(k3, x3) + (Pick(k4, x4) + Pick(k5, x5)))), [x1, x2, x3, x4, x5])
  {
    var w5: seq<T> := [x5];
    var w4 := [x4] + w5;
    var w3 := [x3] + w4;
    var w2 := [x2] + w3;
    var w1 := [x1] + w2;
    assert w1 == [x1, x2, x3, x4, x5];
    var t5 := Pick(k5, x5);
    assert t5 == Pick(k5, x5) + [];
    KeepOrDropHead(k5, x5, [], []);
    assert IsSubsequence(t5, w5) by { assert w5 == [x5] + []; }
    var t4 := Pick(k4, x4) + t5;
    KeepOrDropHead(k4, x4, t5, w5);
    var t3 := Pick(k3, x3) + t4;
    KeepOrDropHead(k3, x3, t4, w4);
    var t2 := Pick(k2, x2) + t3;
    KeepOrDropHead(k2, x2, t3, w3);
    KeepOrDropHead(k1, x1, t2, w2);
  }

  /** The elements of a subsequence are elements of the whole. */
  lemma {:induction false} SubsequenceElements<T(!new)>(r: seq<T>, xs: seq<T>)
    requires IsSubsequence(r, xs)
    ensures forall x :: x in r ==> x in xs
    decreases |xs|
  {
    if r != [] {
      if r[0] == xs[0] && IsSubsequence(r[1..], xs[1..]) {
        SubsequenceElements(r[1..], xs[1..]);
        forall x | x in r ensures x in xs {
          if x != r[0] {
            assert x in r[1..];
          }
        }
      } else {
        SubsequenceElements(r, xs[1..]);
      }
    }
  }
}
