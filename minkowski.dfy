/** Brute-force Minkowski addition of two shapes (minkowski.py). */
module Minkowski {
  import opened Results
  import opened Vectors

  /** The only error the sum raises: a visited vector whose length is not the
      working dimension (the original raises SyntaxError). */
  datatype SumError = DimensionMismatch

  function Min(a: nat, b: nat): nat
  {
    if a <= b then a else b
  }

  /** Coordinate-wise sum of two vectors. Coordinates are paired up as `zip`
      pairs them, so the sum is as long as the shorter vector. */
  function Add(a: Vector, b: Vector): (w: Vector)
    ensures |w| == Min(|a|, |b|)
    ensures forall k :: 0 <= k < |w| ==> w[k] == a[k] + b[k]
  {
    if a == [] || b == [] then [] else [a[0] + b[0]] + Add(a[1..], b[1..])
  }

  /** The dimension every visited vector is checked against: the length of the
      first vector of `first`, or of `second` when `first` is empty, else 0. */
  function WorkingDimension(first: Shape, second: Shape): (d: nat)
    ensures first + second != [] ==> d == |(first + second)[0]|
    ensures first + second == [] ==> d == 0
  {
    if |first| > 0 then |first[0]| else if |second| > 0 then |second[0]| else 0
  }

  /** Every vector of `s` has exactly `d` coordinates. */
  ghost predicate Fits(s: Shape, d: nat)
  {
    forall i :: 0 <= i < |s| ==> |s[i]| == d
  }

  /** The condition under which the pairwise scan meets a vector of the wrong
      length. Every vector of each shape is visited when, and only when, the
      other shape is non-empty, so an empty operand disables the check. */
  ghost predicate Mismatch(first: Shape, second: Shape)
  {
    var d := WorkingDimension(first, second);
    first != [] && second != [] && !(Fits(first, d) && Fits(second, d))
  }

  /** The Minkowski sum as a set: { a + b | a in first, b in second }. */
  ghost function SumSet(first: Shape, second: Shape): set<Vector>
  {
    set a, b | a in first && b in second :: Add(a, b)
  }

  /** What the brute-force sum returns: the failure, or the sum set. */
  ghost function MinkowskiSum(first: Shape, second: Shape): Result<set<Vector>, SumError>
  {
    if Mismatch(first, second) then Failure(DimensionMismatch) else Success(SumSet(first, second))
  }

  /** The sums of the pairs that the nested scan has visited before pair (i, j),
      in row-major order. */
  ghost function Scanned(first: Shape, second: Shape, i: nat, j: nat): set<Vector>
    requires i <= |first| && j <= |second|
  {
    set p, q | 0 <= p < |first| && 0 <= q < |second| && (p < i || (p == i && q < j))
      :: Add(first[p], second[q])
  }

  lemma ScannedStep(first: Shape, second: Shape, i: nat, j: nat)
    requires i < |first| && j < |second|
    ensures Scanned(first, second, i, j + 1) == Scanned(first, second, i, j) + {Add(first[i], second[j])}
  {
  }

  lemma ScannedNextRow(first: Shape, second: Shape, i: nat)
    requires i < |first|
    ensures Scanned(first, second, i, |second|) == Scanned(first, second, i + 1, 0)
  {
  }

  lemma ScannedAll(first: Shape, second: Shape)
    ensures Scanned(first, second, |first|, 0) == SumSet(first, second)
  {
  }

  /** minkowski_basic: walks the Cartesian product `first` x `second`, checks
      each visited pair against the working dimension, and collects the
      coordinate-wise sums in a set. */
  method MinkowskiBasic(first: Shape, second: Shape) returns (r: Result<set<Vector>, SumError>)
    ensures r == MinkowskiSum(first, second)
  {
    var newShape: set<Vector> := {};
    var dimension := 0;
    if |first| > 0 {
      dimension := |first[0]|;
    } else if |second| > 0 {
      dimension := |second[0]|;
    }
    for i := 0 to |first|
      invariant newShape == Scanned(first, second, i, 0)
      invariant second != [] ==> forall p :: 0 <= p < i ==> |first[p]| == dimension
      invariant second != [] && i > 0 ==> Fits(second, dimension)
    {
      for j := 0 to |second|
        invariant newShape == Scanned(first, second, i, j)
        invariant j > 0 ==> |first[i]| == dimension
        invariant forall q :: 0 <= q < j ==> |second[q]| == dimension
      {
        var vec1, vec2 := first[i], second[j];
        if |vec1| != dimension || |vec2| != dimension {
          return Failure(DimensionMismatch);
        }
        var newPair: Vector := [];
        var k := 0;
        while k < |vec1| && k < |vec2|
          invariant k <= |vec1| && k <= |vec2|
          invariant |newPair| == k
          invariant forall t :: 0 <= t < k ==> newPair[t] == vec1[t] + vec2[t]
        {
          newPair := newPair + [vec1[k] + vec2[k]];
          k := k + 1;
        }
        assert newPair == Add(vec1, vec2);
        ScannedStep(first, second, i, j);
        newShape := newShape + {newPair};
      }
      ScannedNextRow(first, second, i);
    }
    ScannedAll(first, second);
    return Success(newShape);
  }

  // Properties of the sum

  /** With an empty operand nothing is visited: the sum is empty and no
      length is checked, however mixed the other operand's vectors are. */
  lemma EmptyOperand(first: Shape, second: Shape)
    requires first == [] || second == []
    ensures MinkowskiSum(first, second) == Success({})
  {
    SumSetSize(first, second);
    assert |first| * |second| == 0;
  }

  /** Every pair of input vectors contributes its sum to a successful result. */
  lemma SumComplete(first: Shape, second: Shape, i: nat, j: nat)
    requires MinkowskiSum(first, second).Success?
    requires i < |first| && j < |second|
    ensures Add(first[i], second[j]) in MinkowskiSum(first, second).value
  {
  }

  /** Every element of a successful result is the sum of some input pair, has
      the working dimension, and each of its coordinates is the sum of the
      pair's coordinates. */
  lemma SumSound(first: Shape, second: Shape, w: Vector)
    requires MinkowskiSum(first, second).Success?
    requires w in MinkowskiSum(first, second).value
    ensures |w| == WorkingDimension(first, second)
    ensures exists i, j ::
      && 0 <= i < |first| && 0 <= j < |second|
      && |first[i]| == |second[j]| == |w|
      && forall k :: 0 <= k < |w| ==> w[k] == first[i][k] + second[j][k]
  {
  }

  /** The sums of one vector with each vector of a shape. */
  ghost function Row(a: Vector, second: Shape): set<Vector>
  {
    set b | b in second :: Add(a, b)
  }

  /** No two positions of `second` give the same sum with `a`. */
  ghost predicate DistinctRow(a: Vector, second: Shape)
  {
    forall q, q' :: 0 <= q < q' < |second| ==> Add(a, second[q]) != Add(a, second[q'])
  }

  lemma {:induction false} RowSize(a: Vector, second: Shape)
    ensures |Row(a, second)| <= |second|
    ensures DistinctRow(a, second) ==> |Row(a, second)| == |second|
  {
    if second != [] {
      var init, last := second[..|second| - 1], second[|second| - 1];
      assert second == init + [last];
      assert Row(a, second) == Row(a, init) + {Add(a, last)};
      RowSize(a, init);
      if DistinctRow(a, second) {
        forall b | b in init
          ensures Add(a, b) != Add(a, last)
        {
          var q :| 0 <= q < |init| && init[q] == b;
          assert init[q] == second[q];
        }
        assert DistinctRow(a, init) by {
          forall q, q' | 0 <= q < q' < |init|
            ensures Add(a, init[q]) != Add(a, init[q'])
          {
            assert init[q] == second[q] && init[q'] == second[q'];
          }
        }
      }
    }
  }

  /** The pairs at (p, q) and (p', q') give different sums. */
  ghost predicate SumsDiffer(first: Shape, second: Shape, p: nat, q: nat, p': nat, q': nat)
    requires p < |first| && q < |second| && p' < |first| && q' < |second|
  {
    Add(first[p], second[q]) != Add(first[p'], second[q'])
  }

  /** No two distinct index pairs give the same sum. */
  ghost predicate DistinctSums(first: Shape, second: Shape)
  {
    forall p: nat, q: nat, p': nat, q': nat ::
      (p < |first| && q < |second| && p' < |first| && q' < |second| && (p, q) != (p', q'))
      ==> SumsDiffer(first, second, p, q, p', q')
  }

  lemma SumSetAppend(init: Shape, last: Vector, second: Shape)
    ensures SumSet(init + [last], second) == SumSet(init, second) + Row(last, second)
  {
  }

  /** Distinct sums over a shape stay distinct over its prefix, within the
      last row, and between the prefix and the last row. */
  lemma DistinctSumsSplit(init: Shape, last: Vector, second: Shape)
    requires DistinctSums(init + [last], second)
    ensures DistinctSums(init, second)
    ensures DistinctRow(last, second)
    ensures SumSet(init, second) !! Row(last, second)
  {
    var first := init + [last];
    forall p: nat, q: nat, p': nat, q': nat |
      p < |init| && q < |second| && p' < |init| && q' < |second| && (p, q) != (p', q')
      ensures SumsDiffer(init, second, p, q, p', q')
    {
      assert init[p] == first[p] && init[p'] == first[p'];
      assert SumsDiffer(first, second, p, q, p', q');
    }
    forall q, q' | 0 <= q < q' < |second|
      ensures Add(last, second[q]) != Add(last, second[q'])
    {
      assert last == first[|init|];
      assert SumsDiffer(first, second, |init|, q, |init|, q');
    }
    forall w | w in SumSet(init, second)
      ensures w !in Row(last, second)
    {
      var a, b :| a in init && b in second && w == Add(a, b);
      var p :| 0 <= p < |init| && init[p] == a;
      var q :| 0 <= q < |second| && second[q] == b;
      assert a == first[p] && last == first[|init|];
      forall q' | 0 <= q' < |second|
        ensures w != Add(last, second[q'])
      {
        assert SumsDiffer(first, second, p, q, |init|, q');
      }
    }
  }

  /** The sum has at most |first| * |second| elements. */
  lemma {:induction false} SumSetSize(first: Shape, second: Shape)
    ensures |SumSet(first, second)| <= |first| * |second|
  {
    if first != [] {
      var init, last := first[..|first| - 1], first[|first| - 1];
      assert first == init + [last];
      SumSetAppend(init, last, second);
      SumSetSize(init, second);
      RowSize(last, second);
      ProductStep(|init|, |second|);
    }
  }

  /** When no two pairs give the same sum, it has exactly |first| * |second|. */
  lemma {:induction false} DistinctSumSetSize(first: Shape, second: Shape)
    requires DistinctSums(first, second)
    ensures |SumSet(first, second)| == |first| * |second|
  {
    if first != [] {
      var init, last := first[..|first| - 1], first[|first| - 1];
      assert first == init + [last];
      DistinctSumsSplit(init, last, second);
      DistinctSumSetSize(init, second);
      RowSize(last, second);
      SumSetAppend(init, last, second);
      DisjointUnionSize(SumSet(init, second), Row(last, second));
      ProductStep(|init|, |second|);
    }
  }

  lemma DisjointUnionSize(a: set<Vector>, b: set<Vector>)
    requires a !! b
    ensures |a + b| == |a| + |b|
  {
  }

  lemma ProductStep(m: nat, n: nat)
    ensures (m + 1) * n == m * n + n
  {
  }

  /** Zip-sum does not depend on the order of its operands. */
  lemma AddCommutes(a: Vector, b: Vector)
    ensures Add(a, b) == Add(b, a)
  {
  }

  /** Whether the scan fails does not depend on the order of the operands:
      all vectors of both shapes must share one length. */
  lemma MismatchSymmetric(first: Shape, second: Shape)
    ensures Mismatch(first, second) == Mismatch(second, first)
  {
  }

  /** Swapping the operands changes neither the set nor whether the call fails. */
  lemma Commutes(first: Shape, second: Shape)
    ensures MinkowskiSum(first, second) == MinkowskiSum(second, first)
  {
    MismatchSymmetric(first, second);
    forall w | w in SumSet(first, second)
      ensures w in SumSet(second, first)
    {
      var a, b :| a in first && b in second && w == Add(a, b);
      AddCommutes(a, b);
    }
    forall w | w in SumSet(second, first)
      ensures w in SumSet(first, second)
    {
      var a, b :| a in second && b in first && w == Add(a, b);
      AddCommutes(a, b);
    }
    assert SumSet(first, second) == SumSet(second, first);
  }

  /** A two-dimensional point against a three-dimensional one fails. */
  lemma MismatchedDimensionsFail()
    ensures MinkowskiSum([[0.0, 0.0]], [[1.0, 1.0, 1.0]]) == Failure(DimensionMismatch)
  {
    var first: Shape, second: Shape := [[0.0, 0.0]], [[1.0, 1.0, 1.0]];
    assert |second[0]| != WorkingDimension(first, second);
  }
}
