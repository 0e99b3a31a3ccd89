/** Rasters as the pipeline holds them in numpy: 2-D maps stored as rows
    (row-major), stacks of maps (axis 0 first), and H x W x C images, with the
    pointwise operations the pipeline applies to them. */
module Raster {

  /** A 2-D map of values (a probability map, a heatmap). */
  type Grid = seq<seq<real>>

  /** An image, H x W pixels of channel values (layout HWC). */
  type Image = seq<seq<seq<real>>>

  /** m is an h-by-w raster. */
  predicate Shaped<T>(m: seq<seq<T>>, h: nat, w: nat) {
    |m| == h && forall i :: 0 <= i < h ==> |m[i]| == w
  }

  /** A stack of h-by-w rasters: an array of shape (n, h, w). */
  predicate AllShaped<T>(ms: seq<seq<seq<T>>>, h: nat, w: nat) {
    forall k :: 0 <= k < |ms| ==> Shaped(ms[k], h, w)
  }

  /** An h-by-w image with c values per pixel (layout HWC). */
  predicate ImageShaped(img: seq<seq<seq<real>>>, h: nat, w: nat, c: nat) {
    Shaped(img, h, w) && forall i, j :: 0 <= i < h && 0 <= j < w ==> |img[i][j]| == c
  }

  /** An h-by-w raster holding v everywhere (np.zeros_like when v is 0). */
  function Constant<T>(h: nat, w: nat, v: T): (r: seq<seq<T>>)
    ensures Shaped(r, h, w)
    ensures forall i, j :: 0 <= i < h && 0 <= j < w ==> r[i][j] == v
  {
    seq(h, _ => seq(w, _ => v))
  }

  /** Pointwise sum of two h-by-w maps (numpy's `a + b`). */
  function Add(a: seq<seq<real>>, b: seq<seq<real>>, h: nat, w: nat): (r: seq<seq<real>>)
    requires Shaped(a, h, w) && Shaped(b, h, w)
    ensures Shaped(r, h, w)
    ensures forall i, j :: 0 <= i < h && 0 <= j < w ==> r[i][j] == a[i][j] + b[i][j]
  {
    seq(h, i requires 0 <= i < h => seq(w, j requires 0 <= j < w => a[i][j] + b[i][j]))
  }

  /** Pointwise division by a constant (numpy's `a / d`). */
  function Divide(a: seq<seq<real>>, d: real, h: nat, w: nat): (r: seq<seq<real>>)
    requires Shaped(a, h, w) && d != 0.0
    ensures Shaped(r, h, w)
    ensures forall i, j :: 0 <= i < h && 0 <= j < w ==> r[i][j] == a[i][j] / d
  {
    seq(h, i requires 0 <= i < h => seq(w, j requires 0 <= j < w => a[i][j] / d))
  }

  /** Sum over the stack of the values at pixel (i, j). */
  function SumAt(ms: seq<seq<seq<real>>>, h: nat, w: nat, i: nat, j: nat): real
    requires AllShaped(ms, h, w) && i < h && j < w
  {
    if ms == [] then 0.0 else SumAt(ms[..|ms| - 1], h, w, i, j) + ms[|ms| - 1][i][j]
  }

  /** Pointwise arithmetic mean over axis 0 of a non-empty stack
      (numpy's `mean(axis=0)`). */
  function Mean(ms: seq<seq<seq<real>>>, h: nat, w: nat): (r: seq<seq<real>>)
    requires |ms| > 0 && AllShaped(ms, h, w)
    ensures Shaped(r, h, w)
    ensures forall i, j :: 0 <= i < h && 0 <= j < w ==> r[i][j] == SumAt(ms, h, w, i, j) / |ms| as real
  {
    seq(h, i requires 0 <= i < h => seq(w, j requires 0 <= j < w => SumAt(ms, h, w, i, j) / |ms| as real))
  }

  /** Summing n copies of one map gives n times its value. */
  lemma {:induction false} SumOfCopies(ms: seq<seq<seq<real>>>, g: seq<seq<real>>, h: nat, w: nat, i: nat, j: nat)
    requires Shaped(g, h, w) && i < h && j < w
    requires forall k :: 0 <= k < |ms| ==> ms[k] == g
    ensures AllShaped(ms, h, w)
    ensures SumAt(ms, h, w, i, j) == |ms| as real * g[i][j]
  {
    if ms != [] {
      SumOfCopies(ms[..|ms| - 1], g, h, w, i, j);
    }
  }

  /** The mean of a stack of identical maps is that map. */
  lemma MeanOfCopies(ms: seq<seq<seq<real>>>, g: seq<seq<real>>, h: nat, w: nat)
    requires Shaped(g, h, w) && |ms| > 0
    requires forall k :: 0 <= k < |ms| ==> ms[k] == g
    ensures AllShaped(ms, h, w)
    ensures Mean(ms, h, w) == g
  {
    var r := Mean(ms, h, w);
    forall i | 0 <= i < h
      ensures r[i] == g[i]
    {
      forall j | 0 <= j < w
        ensures r[i][j] == g[i][j]
      {
        SumOfCopies(ms, g, h, w, i, j);
      }
    }
  }

  /** Every pixel of one map lies in [lo, hi]. */
  predicate GridWithin(g: seq<seq<real>>, h: nat, w: nat, lo: real, hi: real)
    requires Shaped(g, h, w)
  {
    forall i, j :: 0 <= i < h && 0 <= j < w ==> lo <= g[i][j] <= hi
  }

  /** Every value of the stack lies in [lo, hi]. */
  predicate AllWithin(ms: seq<seq<seq<real>>>, h: nat, w: nat, lo: real, hi: real)
    requires AllShaped(ms, h, w)
  {
    forall k, i, j :: 0 <= k < |ms| && 0 <= i < h && 0 <= j < w ==> lo <= ms[k][i][j] <= hi
  }

  lemma {:induction false} SumWithin(ms: seq<seq<seq<real>>>, h: nat, w: nat, i: nat, j: nat, lo: real, hi: real)
    requires AllShaped(ms, h, w) && i < h && j < w && AllWithin(ms, h, w, lo, hi)
    ensures |ms| as real * lo <= SumAt(ms, h, w, i, j) <= |ms| as real * hi
  {
    if ms != [] {
      var n := |ms| as real;
      var init := ms[..|ms| - 1];
      assert AllShaped(init, h, w);
      assert AllWithin(init, h, w, lo, hi) by {
        forall k, i', j' | 0 <= k < |init| && 0 <= i' < h && 0 <= j' < w
          ensures lo <= init[k][i'][j'] <= hi
        {
          assert init[k] == ms[k];
        }
      }
      assert lo <= ms[|ms| - 1][i][j] <= hi;
      SumWithin(init, h, w, i, j, lo, hi);
      assert n * lo == (n - 1.0) * lo + lo && n * hi == (n - 1.0) * hi + hi;
    }
  }

  /** A mean never leaves the range of the maps it averages; in particular
      the mean of probability maps is a probability map. */
  lemma MeanWithin(ms: seq<seq<seq<real>>>, h: nat, w: nat, lo: real, hi: real)
    requires |ms| > 0 && AllShaped(ms, h, w) && AllWithin(ms, h, w, lo, hi)
    ensures forall i, j :: 0 <= i < h && 0 <= j < w ==> lo <= Mean(ms, h, w)[i][j] <= hi
  {
    forall i, j | 0 <= i < h && 0 <= j < w
      ensures lo <= Mean(ms, h, w)[i][j] <= hi
    {
      SumWithin(ms, h, w, i, j, lo, hi);
      var n := |ms| as real;
      assert n * lo / n == lo && n * hi / n == hi;
    }
  }

  /** The map with every pixel outside `mask` set to 0 (`y[~mask] = 0`). */
  function Masked(g: seq<seq<real>>, mask: seq<seq<bool>>, h: nat, w: nat): (r: seq<seq<real>>)
    requires Shaped(g, h, w) && Shaped(mask, h, w)
    ensures Shaped(r, h, w)
    ensures forall i, j :: 0 <= i < h && 0 <= j < w ==> r[i][j] == if mask[i][j] then g[i][j] else 0.0
  {
    seq(h, i requires 0 <= i < h => seq(w, j requires 0 <= j < w => if mask[i][j] then g[i][j] else 0.0))
  }

  /** Binarization `g >= t`. */
  function AtLeast(g: seq<seq<real>>, t: real, h: nat, w: nat): (r: seq<seq<bool>>)
    requires Shaped(g, h, w)
    ensures Shaped(r, h, w)
    ensures forall i, j :: 0 <= i < h && 0 <= j < w ==> r[i][j] == (g[i][j] >= t)
  {
    seq(h, i requires 0 <= i < h => seq(w, j requires 0 <= j < w => g[i][j] >= t))
  }

  /** numpy's `any`: some pixel is set. */
  predicate AnySet(b: seq<seq<bool>>, h: nat, w: nat)
    requires Shaped(b, h, w)
  {
    exists i, j :: 0 <= i < h && 0 <= j < w && b[i][j]
  }

  /** The rows of m laid end to end (row-major flattening, as `argmax` sees m). */
  function Flatten<T>(m: seq<seq<T>>): seq<T> {
    if m == [] then [] else m[0] + Flatten(m[1..])
  }

  lemma {:induction false} FlattenLength<T>(m: seq<seq<T>>, h: nat, w: nat)
    requires Shaped(m, h, w)
    ensures |Flatten(m)| == h * w
  {
    if m != [] {
      FlattenLength(m[1..], h - 1, w);
      assert h * w == w + (h - 1) * w;
    }
  }

  /** Cell (i, j) sits at flat index i * w + j. */
  lemma {:induction false} FlattenIndex<T>(m: seq<seq<T>>, h: nat, w: nat, i: nat, j: nat)
    requires Shaped(m, h, w) && i < h && j < w
    ensures |Flatten(m)| == h * w
    ensures i * w + j < h * w && Flatten(m)[i * w + j] == m[i][j]
  {
    FlattenLength(m, h, w);
    if i == 0 {
      assert Flatten(m)[j] == m[0][j];
    } else {
      FlattenIndex(m[1..], h - 1, w, i - 1, j);
      assert i * w + j == w + ((i - 1) * w + j);
    }
  }

  /** numpy's `unravel_index` for a row length w: flat index k is row k / w,
      column k % w. */
  lemma Unravel(k: nat, h: nat, w: nat)
    requires k < h * w
    ensures w > 0 && k / w < h && k % w < w && (k / w) * w + k % w == k
  {
  }

  /** Concatenation along the channel axis (`np.concatenate(..., axis=2)`). */
  function Concat(a: seq<seq<seq<real>>>, b: seq<seq<seq<real>>>, h: nat, w: nat): (r: seq<seq<seq<real>>>)
    requires Shaped(a, h, w) && Shaped(b, h, w)
    ensures Shaped(r, h, w)
    ensures forall i, j :: 0 <= i < h && 0 <= j < w ==> |r[i][j]| == |a[i][j]| + |b[i][j]|
    ensures forall i, j, c :: 0 <= i < h && 0 <= j < w && 0 <= c < |a[i][j]| ==> r[i][j][c] == a[i][j][c]
    ensures forall i, j, c :: 0 <= i < h && 0 <= j < w && 0 <= c < |b[i][j]| ==> r[i][j][|a[i][j]| + c] == b[i][j][c]
  {
    seq(h, i requires 0 <= i < h => seq(w, j requires 0 <= j < w => a[i][j] + b[i][j]))
  }

  /** The HWC -> CHW transpose (`np.transpose(img, (2, 0, 1))`): one h-by-w
      map per channel. */
  function ChannelsFirst(img: seq<seq<seq<real>>>, h: nat, w: nat, c: nat): (r: seq<seq<seq<real>>>)
    requires ImageShaped(img, h, w, c)
    ensures |r| == c && AllShaped(r, h, w)
    ensures forall k, i, j :: 0 <= k < c && 0 <= i < h && 0 <= j < w ==> r[k][i][j] == img[i][j][k]
  {
    seq(c, k requires 0 <= k < c => seq(h, i requires 0 <= i < h => seq(w, j requires 0 <= j < w => img[i][j][k])))
  }
}
