# BasicMinkowski in Dafny

A model of the two pieces of logic in BasicMinkowski.

- **Minkowski sum** (`minkowski.py`, module `Minkowski`). `minkowski_basic(first, second)` combines two shapes. A shape is a list of equal-length coordinate tuples. The function:
  - picks a working dimension from the first vector of `first`, or of `second` when `first` is empty;
  - walks every pair of `first` × `second`;
  - fails as soon as a visited vector has the wrong length;
  - otherwise collects the coordinate-wise sum of each pair in a set, so equal sums collapse.
- **Shape transforms** (`PlottingMinkowski.py`, module `PlottingMinkowski`). `flip_dimension(shape, *axes)` and `scale_dimension(shape, factor, *axes)` rewrite every slot of a caller-owned list in place. They negate, or multiply by `factor`, the coordinate named by each listed axis. A repeated axis is applied again each time.

Shared types are in `vectors.dfy`:
- A vector is a `seq<real>`.
- A shape is a `seq` of vectors.
- `Result` and `Outcome` stand for "returned a value or nothing" versus "raised".

`MinkowskiBasic` is a method with the source's nested loops. It is proved equal to the ghost function `MinkowskiSum`, which is defined as follows:
- `Failure(DimensionMismatch)` when `Mismatch` holds. `Mismatch` means both shapes are non-empty and some vector's length is not the working dimension.
- `Success(SumSet)` otherwise, where `SumSet(first, second)` is the set comprehension `{ a + b | a in first, b in second }`.

The lemmas about that function carry the properties. `FlipDimension` and `ScaleDimension` are methods that modify an `array<Vector>`. Each slot's new value is stated through the functions `Flip` and `Scale`. Those functions apply the listed axes in order, and the lemmas about them say what they do to each coordinate.

Details of the code that the model keeps:
- Axes are a sequence (`*args`), so a repeated axis is applied again. Flipping twice along one axis cancels out, and scaling twice multiplies by `factor²`.
- An axis in `-n .. -1` is accepted and counts from the end, as Python list indexing does (`AxisFits`, `AxisIndex`).
- Commutativity holds for all inputs, including whether the call fails (`Commutes`), because the error condition and the `zip` sum are both symmetric.

## Model

| member | source | states |
|---|---|---|
| `Minkowski.MinkowskiBasic` | minkowski.py:8-29 | The nested scan returns exactly `MinkowskiSum(first, second)`. That is `DimensionMismatch` iff both shapes are non-empty and some vector of either has a length other than the working dimension. Otherwise it is the set of all pairwise coordinate sums. |
| `Minkowski.WorkingDimension` | minkowski.py:16-20 | The dimension is the length of the first vector of `first ++ second`, or 0 when both are empty. So `first` is preferred and `second` is used only when `first` is empty. |
| `Minkowski.Add` | minkowski.py:25-27 | The sum has as many coordinates as the shorter vector (the pairing `zip` makes), and coordinate `k` is `a[k] + b[k]`. |
| `Minkowski.EmptyOperand` | minkowski.py:21-24 | With an empty operand the result is the empty set and no error is raised, whatever the other shape's vector lengths. |
| `Minkowski.SumComplete` | minkowski.py:21-28 | On success, the sum of every pair `first[i]`, `second[j]` is in the result. |
| `Minkowski.SumSound` | minkowski.py:21-28 | On success, every result vector has the working dimension. It is also the coordinate-wise sum of some pair whose two vectors have that same length. |
| `Minkowski.SumSetSize` | minkowski.py:15-28 | The sum set has at most `|first| * |second|` elements. |
| `Minkowski.DistinctSumSetSize` | minkowski.py:25-28 | When no two index pairs give the same sum, the set has exactly `|first| * |second|` elements. Deduplication removes only equal sums. |
| `Minkowski.AddCommutes` | minkowski.py:26-27 | The pairwise sum does not depend on the order of its operands. |
| `Minkowski.MismatchSymmetric` | minkowski.py:16-24 | Whether the scan fails does not depend on which shape comes first. |
| `Minkowski.Commutes` | minkowski.py:21-28 | Swapping the arguments gives the same outcome: the same set, or the same failure. |
| `Minkowski.Mismatch` | minkowski.py:21-24 | The call raises iff both shapes are non-empty and some vector of either has a length other than the working dimension. |
| `Minkowski.SumSet` | minkowski.py:21-28 | The result of a successful call: the set of `Add(a, b)` for every `a` in `first` and `b` in `second`. |
| `Minkowski.MinkowskiSum` | minkowski.py:15-29 | The whole outcome: `DimensionMismatch` when `Mismatch` holds, otherwise `SumSet`. |
| `Minkowski.MismatchedDimensionsFail` | minkowski.py:23-24 | A 2-dimensional point against a 3-dimensional one raises the dimension error. |
| `PlottingMinkowski.AxisFits` | PlottingMinkowski.py:33-34 | An axis indexes a length-`n` vector without IndexError iff it lies in `-n .. n-1`. |
| `PlottingMinkowski.AxisIndex` | PlottingMinkowski.py:34 | An axis that fits a length-`n` vector denotes a position below `n`: the axis itself, or the axis plus `n` for a negative axis (Python list indexing). |
| `PlottingMinkowski.FirstUnfit` | PlottingMinkowski.py:31-35 | The first slot whose vector some listed axis does not fit, or the shape's length if there is none. Every earlier slot fits every axis. |
| `PlottingMinkowski.Occurrences` | PlottingMinkowski.py:33-34 | The number of listed axes denoting coordinate `k` is at most the number of axes. It is 0 exactly when no listed axis denotes `k`. |
| `PlottingMinkowski.Flip` | PlottingMinkowski.py:32-35 | Flipping a vector keeps its length. |
| `PlottingMinkowski.Scale` | PlottingMinkowski.py:47-50 | Scaling a vector keeps its length. |
| `PlottingMinkowski.FlipDimension` | PlottingMinkowski.py:23-35 | Slots before `FirstUnfit` hold the flipped vector and the rest are untouched. The call passes iff no slot is unfit. A failure part-way is not rolled back. The array's length is unchanged. |
| `PlottingMinkowski.ScaleDimension` | PlottingMinkowski.py:38-50 | The same as `FlipDimension`, with each transformed slot holding the scaled vector. |
| `PlottingMinkowski.FlipAt` | PlottingMinkowski.py:33-34 | Coordinate `k` of a flipped vector is negated iff an odd number of axes denote it, and is unchanged otherwise. With no axes the flip is the identity. |
| `PlottingMinkowski.FlipInvolutive` | PlottingMinkowski.py:31-35 | Flipping twice along the same axes restores the vector. |
| `PlottingMinkowski.ScaleAt` | PlottingMinkowski.py:48-49 | Coordinate `k` of a scaled vector is `factor^e * v[k]`, where `e` is the number of axes denoting `k`. |
| `PlottingMinkowski.ScaleByOne` | PlottingMinkowski.py:46-50 | Scaling by 1 leaves the vector unchanged. |
| `PlottingMinkowski.ScaleByZero` | PlottingMinkowski.py:46-50 | Scaling by 0 makes every listed coordinate exactly 0 and leaves the unlisted ones unchanged. |
| `PlottingMinkowski.FlipIsScaleByMinusOne` | PlottingMinkowski.py:31-50 | Flipping along some axes gives the same vector as scaling by -1 along them. |
| `PlottingMinkowski.FirstUnfitSameLengths` | PlottingMinkowski.py:31-35 | Where a transform stops depends only on the lengths of the shape's vectors, so a rewritten shape stops at the same slot. |
| `PlottingMinkowski.FlipDimensionTwice` | PlottingMinkowski.py:23-35 | Calling `flip_dimension` twice with the same axes restores the whole shape, and both calls fail or pass alike, even after a part-way failure. |
| `PlottingMinkowski.ScaleDimensionByOne` | PlottingMinkowski.py:38-50 | `scale_dimension` with factor 1 leaves the whole shape unchanged, and fails exactly where `ScaleDimension` does. |
| `PlottingMinkowski.ScaleDimensionByZero` | PlottingMinkowski.py:38-50 | `scale_dimension` with factor 0 sets every listed coordinate of each rewritten vector to 0, keeps the other coordinates, and leaves the slots from the failure point on untouched. |

## Left out

- `to_arrays_3d` and `plot_shape` (PlottingMinkowski.py:53-84) are matplotlib/numpy rendering; they are not part of this model.
- The `TETRAHEDRON` and `TRIANGLE` constants and both `__main__` demonstration blocks are left out. They use `np.sqrt` floats and printing or plotting.
- Floating-point arithmetic is left out. Coordinates are exact reals, so mathematically equal sums always collapse in the set. In the original, sums reached by different rounding paths may stay distinct.
- The exception types are abstracted: `SyntaxError` becomes `DimensionMismatch` and `IndexError` becomes `AxisOutOfRange`. A non-integer axis (a `TypeError` in Python) cannot be expressed, because axes are `int`.
- Minkowski.MinkowskiBasic: the result does not say which pair failed. The partial set is local to the call and is dropped on failure, so the lazy timing of the check is visible only through `Mismatch`: an empty operand skips the check entirely.
- Shapes given to `minkowski_basic` as arbitrary iterables are not modelled. Only indexable lists (`seq`) are.
