/** The in-place shape transforms of PlottingMinkowski.py: reflecting and
    scaling every vector of a shape along listed axes. */
module PlottingMinkowski {
  import opened Results
  import opened Vectors

  /** The only error the transforms raise: an axis that is not a valid index
      into the vector being rewritten (the original raises IndexError). */
  datatype TransformError = AxisOutOfRange

  /** An axis indexes a vector of length `n` as a Python list index does:
      0 .. n-1 from the front, or -n .. -1 from the back. */
  predicate AxisFits(axis: int, n: nat)
  {
    -(n as int) <= axis < n
  }

  /** The coordinate position an axis that fits denotes. */
  function AxisIndex(axis: int, n: nat): (k: nat)
    requires AxisFits(axis, n)
    ensures k < n
    ensures k == axis || k == axis + n
  {
    if axis < 0 then axis + n else axis
  }

  /** Every listed axis fits a vector of length `n`. */
  predicate AxesFit(axes: seq<int>, n: nat)
  {
    forall j :: 0 <= j < |axes| ==> AxisFits(axes[j], n)
  }

  /** The position of the first vector of `s` that some axis does not fit,
      or |s| when every axis fits every vector: the slot at which a transform
      of `s` stops. */
  function FirstUnfit(s: seq<Vector>, axes: seq<int>): (c: nat)
    ensures c <= |s|
    ensures forall i :: 0 <= i < c ==> AxesFit(axes, |s[i]|)
    ensures c < |s| ==> !AxesFit(axes, |s[c]|)
  {
    if s == [] || !AxesFit(axes, |s[0]|) then 0 else 1 + FirstUnfit(s[1..], axes)
  }

  /** How many of the listed axes denote coordinate `k` of a length-`n` vector. */
  function Occurrences(axes: seq<int>, n: nat, k: nat): (c: nat)
    ensures c <= |axes|
    ensures c == 0 <==> forall j :: 0 <= j < |axes| && AxisFits(axes[j], n) ==> AxisIndex(axes[j], n) != k
  {
    if axes == [] then 0
    else
      var last := axes[|axes| - 1];
      Occurrences(axes[..|axes| - 1], n, k) + (if AxisFits(last, n) && AxisIndex(last, n) == k then 1 else 0)
  }

  /** `v` after negating the coordinate of each listed axis, in order. */
  function Flip(v: Vector, axes: seq<int>): (w: Vector)
    requires AxesFit(axes, |v|)
    ensures |w| == |v|
  {
    if axes == [] then v
    else
      var u := Flip(v, axes[..|axes| - 1]);
      var k := AxisIndex(axes[|axes| - 1], |v|);
      u[k := -u[k]]
  }

  /** `v` after multiplying the coordinate of each listed axis by `factor`, in order. */
  function Scale(v: Vector, factor: real, axes: seq<int>): (w: Vector)
    requires AxesFit(axes, |v|)
    ensures |w| == |v|
  {
    if axes == [] then v
    else
      var u := Scale(v, factor, axes[..|axes| - 1]);
      var k := AxisIndex(axes[|axes| - 1], |v|);
      u[k := Times(factor, u[k])]
  }

  /** One coordinate multiplied by the scale factor. */
  function Times(factor: real, x: real): real
  {
    factor * x
  }

  /** `factor` raised to the power `e`. */
  function Pow(factor: real, e: nat): real
  {
    if e == 0 then 1.0 else factor * Pow(factor, e - 1)
  }

  /** flip_dimension: rewrites every slot of `shape` with its vector flipped
      along `axes`. At the first slot whose vector some axis does not fit it
      stops with an error; the slots before it keep their new values and the
      rest are untouched. */
  method FlipDimension(shape: array<Vector>, axes: seq<int>) returns (r: Outcome<TransformError>)
    modifies shape
    ensures r.Pass? <==> FirstUnfit(old(shape[..]), axes) == shape.Length
    ensures forall i :: 0 <= i < FirstUnfit(old(shape[..]), axes) ==> shape[i] == Flip(old(shape[i]), axes)
    ensures forall i :: FirstUnfit(old(shape[..]), axes) <= i < shape.Length ==> shape[i] == old(shape[i])
  {
    ghost var before := shape[..];
    for i := 0 to shape.Length
      invariant forall p :: 0 <= p < i ==> AxesFit(axes, |before[p]|) && shape[p] == Flip(before[p], axes)
      invariant forall p :: i <= p < shape.Length ==> shape[p] == before[p]
    {
      var newVec := shape[i];
      for j := 0 to |axes|
        invariant AxesFit(axes[..j], |before[i]|)
        invariant newVec == Flip(before[i], axes[..j])
      {
        var n := axes[j];
        if !(-|newVec| <= n < |newVec|) {
          assert !AxisFits(axes[j], |before[i]|);
          return Fail(AxisOutOfRange);
        }
        var k := if n < 0 then n + |newVec| else n;
        newVec := newVec[k := -newVec[k]];
        assert axes[..j + 1][..j] == axes[..j];
      }
      assert axes[..|axes|] == axes;
      shape[i] := newVec;
    }
    return Pass;
  }

  /** scale_dimension: rewrites every slot of `shape` with its vector scaled
      by `factor` along `axes`, failing part-way exactly as FlipDimension does. */
  method ScaleDimension(shape: array<Vector>, factor: real, axes: seq<int>) returns (r: Outcome<TransformError>)
    modifies shape
    ensures r.Pass? <==> FirstUnfit(old(shape[..]), axes) == shape.Length
    ensures forall i :: 0 <= i < FirstUnfit(old(shape[..]), axes) ==> shape[i] == Scale(old(shape[i]), factor, axes)
    ensures forall i :: FirstUnfit(old(shape[..]), axes) <= i < shape.Length ==> shape[i] == old(shape[i])
  {
    ghost var before := shape[..];
    for i := 0 to shape.Length
      invariant forall p :: 0 <= p < i ==> AxesFit(axes, |before[p]|) && shape[p] == Scale(before[p], factor, axes)
      invariant forall p :: i <= p < shape.Length ==> shape[p] == before[p]
    {
      var newVec := shape[i];
      for j := 0 to |axes|
        invariant AxesFit(axes[..j], |before[i]|)
        invariant newVec == Scale(before[i], factor, axes[..j])
      {
        var n := axes[j];
        if !(-|newVec| <= n < |newVec|) {
          assert !AxisFits(axes[j], |before[i]|);
          return Fail(AxisOutOfRange);
        }
        var k := if n < 0 then n + |newVec| else n;
        newVec := newVec[k := Times(factor, newVec[k])];
        assert axes[..j + 1][..j] == axes[..j];
      }
      assert axes[..|axes|] == axes;
      shape[i] := newVec;
    }
    return Pass;
  }

  // Properties of the per-vector transforms

  lemma AxesFitPrefix(axes: seq<int>, n: nat)
    requires axes != [] && AxesFit(axes, n)
    ensures AxesFit(axes[..|axes| - 1], n)
  {
  }

  /** Coordinate `k` of a flipped vector is negated when an odd number of the
      axes denote it, and unchanged otherwise. */
  lemma {:induction false} FlipAt(v: Vector, axes: seq<int>, k: nat)
    requires AxesFit(axes, |v|) && k < |v|
    ensures Flip(v, axes)[k] == if Occurrences(axes, |v|, k) % 2 == 1 then -v[k] else v[k]
  {
    if axes != [] {
      var init := axes[..|axes| - 1];
      AxesFitPrefix(axes, |v|);
      FlipAt(v, init, k);
      var e := Occurrences(init, |v|, k);
      var u, i := Flip(v, init), AxisIndex(axes[|axes| - 1], |v|);
      assert Flip(v, axes) == u[i := -u[i]];
      if i == k {
        assert Flip(v, axes)[k] == -u[k];
        assert Occurrences(axes, |v|, k) == e + 1;
        assert (e + 1) % 2 == 1 <==> e % 2 != 1;
      } else {
        assert Flip(v, axes)[k] == u[k];
        assert Occurrences(axes, |v|, k) == e;
      }
    }
  }

  /** Flipping twice along the same axes restores the vector. */
  lemma FlipInvolutive(v: Vector, axes: seq<int>)
    requires AxesFit(axes, |v|)
    ensures Flip(Flip(v, axes), axes) == v
  {
    var w := Flip(v, axes);
    forall k | 0 <= k < |v|
      ensures Flip(w, axes)[k] == v[k]
    {
      FlipAt(v, axes, k);
      FlipAt(w, axes, k);
    }
  }

  /** Coordinate `k` of a scaled vector is multiplied by `factor` once for
      every axis that denotes it. */
  lemma {:induction false} ScaleAt(v: Vector, factor: real, axes: seq<int>, k: nat)
    requires AxesFit(axes, |v|) && k < |v|
    ensures Scale(v, factor, axes)[k] == Times(Pow(factor, Occurrences(axes, |v|, k)), v[k])
  {
    if axes != [] {
      var init := axes[..|axes| - 1];
      AxesFitPrefix(axes, |v|);
      ScaleAt(v, factor, init, k);
      var e := Occurrences(init, |v|, k);
      var u, i := Scale(v, factor, init), AxisIndex(axes[|axes| - 1], |v|);
      assert Scale(v, factor, axes) == u[i := Times(factor, u[i])];
      if i == k {
        TimesTimes(factor, Pow(factor, e), v[k]);
        assert Pow(factor, e + 1) == factor * Pow(factor, e);
      }
    }
  }

  lemma TimesTimes(f: real, g: real, x: real)
    ensures Times(f, Times(g, x)) == Times(f * g, x)
  {
  }

  lemma {:induction false} PowOne(e: nat)
    ensures Pow(1.0, e) == 1.0
  {
    if e > 0 {
      PowOne(e - 1);
    }
  }

  /** Scaling by 1 leaves the vector as it was. */
  lemma ScaleByOne(v: Vector, axes: seq<int>)
    requires AxesFit(axes, |v|)
    ensures Scale(v, 1.0, axes) == v
  {
    forall k | 0 <= k < |v|
      ensures Scale(v, 1.0, axes)[k] == v[k]
    {
      ScaleAt(v, 1.0, axes, k);
      PowOne(Occurrences(axes, |v|, k));
    }
  }

  /** Scaling by 0 sets every listed coordinate to 0 and leaves the others. */
  lemma ScaleByZero(v: Vector, axes: seq<int>, k: nat)
    requires AxesFit(axes, |v|) && k < |v|
    ensures (exists j :: 0 <= j < |axes| && AxisIndex(axes[j], |v|) == k) ==> Scale(v, 0.0, axes)[k] == 0.0
    ensures (forall j :: 0 <= j < |axes| ==> AxisIndex(axes[j], |v|) != k) ==> Scale(v, 0.0, axes)[k] == v[k]
  {
    ScaleAt(v, 0.0, axes, k);
  }

  /** Flipping is scaling by -1. */
  lemma {:induction false} FlipIsScaleByMinusOne(v: Vector, axes: seq<int>)
    requires AxesFit(axes, |v|)
    ensures Flip(v, axes) == Scale(v, -1.0, axes)
  {
    if axes != [] {
      var init := axes[..|axes| - 1];
      AxesFitPrefix(axes, |v|);
      FlipIsScaleByMinusOne(v, init);
    }
  }

  // Properties of the transforms on a whole shape

  /** Where a transform stops depends only on the lengths of the vectors. */
  lemma {:induction false} FirstUnfitSameLengths(s: seq<Vector>, t: seq<Vector>, axes: seq<int>)
    requires |s| == |t|
    requires forall i :: 0 <= i < |s| ==> |s[i]| == |t[i]|
    ensures FirstUnfit(s, axes) == FirstUnfit(t, axes)
  {
    if s != [] {
      FirstUnfitSameLengths(s[1..], t[1..], axes);
    }
  }

  /** flip_dimension applied twice with the same axes restores the shape, and
      the second call fails exactly when the first does, even when the first
      stops part-way. */
  method FlipDimensionTwice(shape: array<Vector>, axes: seq<int>) returns (r1: Outcome<TransformError>, r2: Outcome<TransformError>)
    modifies shape
    ensures r1 == r2
    ensures shape[..] == old(shape[..])
  {
    ghost var before := shape[..];
    r1 := FlipDimension(shape, axes);
    FirstUnfitSameLengths(before, shape[..], axes);
    r2 := FlipDimension(shape, axes);
    assert r1.Pass? <==> r2.Pass?;
    if r1.Fail? {
      assert r1.error == r2.error == AxisOutOfRange;
    }
    forall i | 0 <= i < FirstUnfit(before, axes)
      ensures shape[i] == before[i]
    {
      FlipInvolutive(before[i], axes);
    }
  }

  /** scale_dimension with factor 1 leaves the whole shape as it was. */
  method ScaleDimensionByOne(shape: array<Vector>, axes: seq<int>) returns (r: Outcome<TransformError>)
    modifies shape
    ensures r.Pass? <==> FirstUnfit(old(shape[..]), axes) == shape.Length
    ensures shape[..] == old(shape[..])
  {
    ghost var before := shape[..];
    r := ScaleDimension(shape, 1.0, axes);
    forall i | 0 <= i < FirstUnfit(before, axes)
      ensures shape[i] == before[i]
    {
      ScaleByOne(before[i], axes);
    }
  }

  /** scale_dimension with factor 0 sets every listed coordinate of every
      rewritten vector to 0 and leaves the unlisted coordinates as they were. */
  method ScaleDimensionByZero(shape: array<Vector>, axes: seq<int>) returns (r: Outcome<TransformError>)
    modifies shape
    ensures r.Pass? <==> FirstUnfit(old(shape[..]), axes) == shape.Length
    ensures forall i, k :: 0 <= i < FirstUnfit(old(shape[..]), axes) && 0 <= k < |old(shape[i])| ==>
      && |shape[i]| == |old(shape[i])|
      && shape[i][k] == if Occurrences(axes, |old(shape[i])|, k) == 0 then old(shape[i])[k] else 0.0
    ensures forall i :: FirstUnfit(old(shape[..]), axes) <= i < shape.Length ==> shape[i] == old(shape[i])
  {
    ghost var before := shape[..];
    r := ScaleDimension(shape, 0.0, axes);
    forall i, k | 0 <= i < FirstUnfit(before, axes) && 0 <= k < |before[i]|
      ensures shape[i][k] == if Occurrences(axes, |before[i]|, k) == 0 then before[i][k] else 0.0
    {
      ScaleAt(before[i], 0.0, axes, k);
    }
  }
}
