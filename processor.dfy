/** The AMD feature segmentation runner (cfi_amd/processor.py): five folds
    per feature group, combined into one probability map per feature, mapped
    back to the original image and masked to the fundus. The networks, the
    fundus geometry (`get_cfi_bounds`, `bounds.crop`, `T.warp_inverse`) and
    numpy's `log` and `**` are collaborators this model does not open: they
    are parameters, and only what the pipeline relies on is required of
    them. */
module Processor {
  import opened Wrappers
  import opened Raster
  import opened Fundus
  import UNetWiring

  // ---------------------------------------------------------------- configuration

  /** `model_folder`. */
  const ModelFolder: string := "models"

  /** The feature groups with their own ensembles, in the order of
      `self.models`. */
  const Features: seq<string> := ["drusen", "pigment", "RPD"]

  /** The two outputs of the pigment networks, by channel index. */
  const PigmentOutputs: seq<string> := ["rpe_degeneration", "hyperpigmentation"]

  /** The ensemble size (`range(5)`). */
  const FoldCount: nat := 5

  /** The canonical crop size `bounds.crop(1024)`. */
  const CropSize: nat := 1024

  /** The UNet configuration of `Model`. */
  const ModelFilters: seq<int> := [32, 48, 64, 96, 128, 192, 256, 384]
  const ModelBottleneck: int := 512
  const ModelResConvs: int := 1
  const ModelInChannels: int := 9

  /** Optimal per-fold thresholds, tuned on the average dice score per
      validation image (`self.thresholds`). */
  const Thresholds: map<string, seq<real>> := map[
    "drusen" := [0.81, 0.76, 0.44, 0.72, 0.58],
    "rpe_degeneration" := [0.53, 0.8, 0.75, 0.74, 0.09],
    "hyperpigmentation" := [0.44, 0.47, 0.65, 0.22, 0.28],
    "RPD" := [0.19, 0.11, 0.08, 0.07, 0.39]]

  /** Thresholds tuned on the dice score over the whole validation set
      (`self.thresholds_global`); the runner never reads them. */
  const ThresholdsGlobal: map<string, seq<real>> := map[
    "drusen" := [0.85, 0.74, 0.47, 0.66, 0.69],
    "rpe_degeneration" := [0.75, 0.76, 0.45, 0.65, 0.60],
    "hyperpigmentation" := [0.59, 0.92, 0.74, 0.78, 0.37],
    "RPD" := [0.85, 0.34, 0.78, 0.72, 0.70]]

  /** The output names of a feature group: the pigment network's two
      channels are two features, every other group is its own feature. */
  function OutputNames(feature: string): seq<string> {
    if feature == "pigment" then PigmentOutputs else [feature]
  }

  /** The keys of the result besides `bounds`. */
  const ResultFeatures: set<string> := {"drusen", "rpe_degeneration", "hyperpigmentation", "RPD"}

  // ---------------------------------------------------------------- load_models

  /** Output channels of the network class `load_models` picks: `Model2` for
      the pigment group, `Model1` otherwise. */
  function OutputChannels(feature: string): nat {
    if feature == "pigment" then 2 else 1
  }

  /** A checkpoint to load: its path, as components, and the output channels
      of the class it is loaded into. */
  datatype Checkpoint = Checkpoint(path: seq<string>, outChannels: nat)

  /** `f'model_{i}.ckpt'` for a one-digit fold index. */
  function CheckpointName(i: nat): string
    requires i < 10
  {
    "model_" + [('0' as int + i) as char] + ".ckpt"
  }

  /** The fold index a checkpoint file name carries, if it has that form. */
  function CheckpointIndex(name: string): Option<nat> {
    if |name| == 12 && name[..6] == "model_" && name[7..] == ".ckpt" && '0' <= name[6] <= '9'
    then Some(name[6] as int - '0' as int)
    else None
  }

  /** `load_models(feature, device)`; `root` is the directory above the
      package (`parent_dir`). */
  function LoadModels(root: seq<string>, feature: string): (ms: seq<Checkpoint>)
    ensures |ms| == FoldCount
    ensures forall i :: 0 <= i < |ms| ==> |ms[i].path| == |root| + 3 && ms[i].path[..|root|] == root
  {
    seq(FoldCount, i requires 0 <= i < FoldCount =>
      Checkpoint(root + [ModelFolder, feature, CheckpointName(i)], OutputChannels(feature)))
  }

  /** `load_models` yields exactly five checkpoints,
      `<root>/models/<feature>/model_<i>.ckpt` for i = 0..4 in order, all
      distinct, each naming its own fold index, and loads them as two-output
      networks exactly when the feature is `pigment`. */
  lemma LoadModelsPaths(root: seq<string>, feature: string)
    ensures var ms := LoadModels(root, feature);
      && |ms| == 5
      && (forall i :: 0 <= i < 5 ==>
            |ms[i].path| == |root| + 3 && ms[i].path[..|root|] == root
            && ms[i].path[|root|] == "models" && ms[i].path[|root| + 1] == feature
            && CheckpointIndex(ms[i].path[|root| + 2]) == Some(i))
      && (forall i, j :: 0 <= i < j < 5 ==> ms[i].path != ms[j].path)
      && (forall i :: 0 <= i < 5 ==> (ms[i].outChannels == 2 <==> feature == "pigment"))
  {
    var ms := LoadModels(root, feature);
    forall i | 0 <= i < 5
      ensures CheckpointIndex(ms[i].path[|root| + 2]) == Some(i)
    {
      assert ms[i].path[|root| + 2] == CheckpointName(i);
    }
    forall i, j | 0 <= i < j < 5
      ensures ms[i].path != ms[j].path
    {
      assert ms[i].path[|root| + 2] == CheckpointName(i);
      assert ms[j].path[|root| + 2] == CheckpointName(j);
    }
  }

  /** The network `Model(out_channels)` wraps: a UNet over the 9 input
      channels whose layers chain, and which yields exactly the output
      channels `load_models` expects for its feature. */
  lemma ModelNetwork(feature: string)
    ensures var built := UNetWiring.BuildUNet(ModelInChannels, OutputChannels(feature), ModelFilters, ModelBottleneck, 3, ModelResConvs);
      && built.Some?
      && UNetWiring.WellWired(built.value)
      && UNetWiring.InChannels(built.value) == 9
      && UNetWiring.OutChannels(built.value) == OutputChannels(feature)
  {
    var built := UNetWiring.BuildUNet(ModelInChannels, OutputChannels(feature), ModelFilters, ModelBottleneck, 3, ModelResConvs);
    UNetWiring.BuildUNetWellWired(ModelInChannels, OutputChannels(feature), ModelFilters, ModelBottleneck, 3, ModelResConvs, built.value);
  }

  // ---------------------------------------------------------------- combine_ensemble

  /** `np.log(th) / np.log(0.5)`: the exponent that moves a fold's optimal
      threshold th to 0.5. */
  function Exponent(th: real, ln: real -> real): (e: real)
    requires ln(0.5) != 0.0
    ensures ln(th) == ln(0.5) ==> e == 1.0
    ensures ln(0.5) < 0.0 && ln(th) <= 0.0 ==> e >= 0.0
  {
    Quotient(ln(th), ln(0.5));
    ln(th) / ln(0.5)
  }

  /** A number over itself is 1, and a non-positive number over a negative
      one is non-negative. */
  lemma Quotient(a: real, b: real)
    requires b != 0.0
    ensures a == b ==> a / b == 1.0
    ensures a <= 0.0 && b < 0.0 ==> a / b >= 0.0
  {
    assert (a / b) * b == a;
  }

  /** `p ** e`, pointwise. */
  function Power(p: Grid, e: real, pow: (real, real) -> real, h: nat, w: nat): (r: Grid)
    requires Shaped(p, h, w)
    ensures Shaped(r, h, w)
    ensures forall i, j :: 0 <= i < h && 0 <= j < w ==> r[i][j] == pow(p[i][j], e)
  {
    seq(h, i requires 0 <= i < h => seq(w, j requires 0 <= j < w => pow(p[i][j], e)))
  }

  /** The `th_optimal` accumulator after the first n (threshold, fold)
      pairs of `zip(thresholds, y_preds)`. */
  function OptimalSum(ths: seq<real>, folds: seq<Grid>, n: nat, pow: (real, real) -> real, ln: real -> real, h: nat, w: nat): (r: Grid)
    requires n <= |ths| && n <= |folds| && AllShaped(folds, h, w) && ln(0.5) != 0.0
    ensures Shaped(r, h, w)
  {
    if n == 0 then Constant(h, w, 0.0)
    else Add(OptimalSum(ths, folds, n - 1, pow, ln, h, w), Power(folds[n - 1], Exponent(ths[n - 1], ln), pow, h, w), h, w)
  }

  /** What `combine_ensemble` returns: the pointwise mean in mode `th_0.5`;
      in mode `th_optimal` the sum over the zipped pairs of
      `p ** (ln th / ln 0.5)`, divided by 5 whatever the number of pairs; and
      None (there is no else branch) for any other mode. */
  function Combined(mode: string, folds: seq<Grid>, ths: seq<real>, pow: (real, real) -> real, ln: real -> real, h: nat, w: nat): (r: Option<Grid>)
    requires |folds| > 0 && AllShaped(folds, h, w) && ln(0.5) != 0.0
    ensures r.Some? <==> mode == "th_0.5" || mode == "th_optimal"
    ensures r.Some? ==> Shaped(r.value, h, w)
  {
    if mode == "th_0.5" then Some(Mean(folds, h, w))
    else if mode == "th_optimal" then Some(Divide(OptimalSum(ths, folds, Min(|ths|, |folds|), pow, ln, h, w), 5.0, h, w))
    else None
  }

  /** `Processor.combine_ensemble(y_preds, thresholds)` with `self.mode`
      passed in; `th_optimal` accumulates into a zero-initialised buffer as
      the source does. */
  method CombineEnsemble(mode: string, folds: seq<Grid>, ths: seq<real>, pow: (real, real) -> real, ln: real -> real, h: nat, w: nat)
    returns (r: Option<Grid>)
    requires |folds| > 0 && AllShaped(folds, h, w) && ln(0.5) != 0.0
    ensures r.Some? <==> mode == "th_0.5" || mode == "th_optimal"
    ensures mode == "th_0.5" ==> r == Some(Mean(folds, h, w))
    ensures mode == "th_optimal" ==> r == Some(Divide(OptimalSum(ths, folds, Min(|ths|, |folds|), pow, ln, h, w), 5.0, h, w))
  {
    if mode == "th_0.5" {
      return Some(Mean(folds, h, w));
    } else if mode == "th_optimal" {
      var result := Constant(h, w, 0.0);
      var n := Min(|ths|, |folds|);
      for k := 0 to n
        invariant result == OptimalSum(ths, folds, k, pow, ln, h, w)
      {
        result := Add(result, Power(folds[k], Exponent(ths[k], ln), pow, h, w), h, w);
      }
      return Some(Divide(result, 5.0, h, w));
    }
    return None;
  }

  /** With threshold 0.5 for every fold the exponent is 1, so the
      accumulator is the plain sum of the folds. */
  lemma {:induction false} HalfThresholdSum(ths: seq<real>, folds: seq<Grid>, n: nat, pow: (real, real) -> real, ln: real -> real, h: nat, w: nat, i: nat, j: nat)
    requires n <= |ths| && n <= |folds| && AllShaped(folds, h, w) && ln(0.5) != 0.0
    requires forall k :: 0 <= k < n ==> ths[k] == 0.5
    requires forall x :: pow(x, 1.0) == x
    requires i < h && j < w
    ensures OptimalSum(ths, folds, n, pow, ln, h, w)[i][j] == SumAt(folds[..n], h, w, i, j)
  {
    if n > 0 {
      HalfThresholdSum(ths, folds, n - 1, pow, ln, h, w, i, j);
      assert folds[..n][..n - 1] == folds[..n - 1];
      assert Exponent(ths[n - 1], ln) == 1.0;
    }
  }

  /** If every threshold is 0.5, `th_optimal` on five folds gives the same
      map as `th_0.5`. */
  lemma HalfThresholdsGiveMean(folds: seq<Grid>, ths: seq<real>, pow: (real, real) -> real, ln: real -> real, h: nat, w: nat)
    requires |folds| == 5 && AllShaped(folds, h, w) && ln(0.5) != 0.0
    requires |ths| == 5 && forall k :: 0 <= k < 5 ==> ths[k] == 0.5
    requires forall x :: pow(x, 1.0) == x
    ensures Combined("th_optimal", folds, ths, pow, ln, h, w) == Combined("th_0.5", folds, ths, pow, ln, h, w)
  {
    var opt := Combined("th_optimal", folds, ths, pow, ln, h, w).value;
    var mean := Mean(folds, h, w);
    forall i | 0 <= i < h
      ensures opt[i] == mean[i]
    {
      forall j | 0 <= j < w
        ensures opt[i][j] == mean[i][j]
      {
        HalfThresholdSum(ths, folds, 5, pow, ln, h, w, i, j);
        assert folds[..5] == folds;
      }
    }
    assert opt == mean;
  }

  /** In mode `th_0.5` the combination of probability maps is a probability
      map, and five identical folds combine to that fold. */
  lemma MeanModeRange(folds: seq<Grid>, ths: seq<real>, pow: (real, real) -> real, ln: real -> real, h: nat, w: nat)
    requires |folds| > 0 && AllShaped(folds, h, w) && ln(0.5) != 0.0
    ensures AllWithin(folds, h, w, 0.0, 1.0) ==>
      forall i, j :: 0 <= i < h && 0 <= j < w ==> 0.0 <= Combined("th_0.5", folds, ths, pow, ln, h, w).value[i][j] <= 1.0
    ensures (forall k :: 0 <= k < |folds| ==> folds[k] == folds[0]) ==>
      Combined("th_0.5", folds, ths, pow, ln, h, w) == Some(folds[0])
  {
    if AllWithin(folds, h, w, 0.0, 1.0) {
      MeanWithin(folds, h, w, 0.0, 1.0);
    }
    if forall k :: 0 <= k < |folds| ==> folds[k] == folds[0] {
      MeanOfCopies(folds, folds[0], h, w);
    }
  }

  /** numpy's `log` and `**` as far as the range of `th_optimal` needs
      them: log is negative at 0.5 and not positive on (0, 1], and a power
      with a non-negative exponent keeps [0, 1]. */
  ghost predicate UnitMath(pow: (real, real) -> real, ln: real -> real) {
    && ln(0.5) < 0.0
    && (forall x :: 0.0 < x <= 1.0 ==> ln(x) <= 0.0)
    && (forall x, e :: 0.0 <= x <= 1.0 && e >= 0.0 ==> 0.0 <= pow(x, e) <= 1.0)
  }

  /** Thresholds in (0, 1] give non-negative exponents, so each of the n
      accumulated terms of probability maps lies in [0, 1]. */
  lemma {:induction false} OptimalSumWithin(ths: seq<real>, folds: seq<Grid>, n: nat, pow: (real, real) -> real, ln: real -> real, h: nat, w: nat, i: nat, j: nat)
    requires n <= |ths| && n <= |folds| && AllShaped(folds, h, w) && UnitMath(pow, ln)
    requires AllWithin(folds, h, w, 0.0, 1.0)
    requires forall k :: 0 <= k < n ==> 0.0 < ths[k] <= 1.0
    requires i < h && j < w
    ensures 0.0 <= OptimalSum(ths, folds, n, pow, ln, h, w)[i][j] <= n as real
  {
    if n > 0 {
      OptimalSumWithin(ths, folds, n - 1, pow, ln, h, w, i, j);
      var e := Exponent(ths[n - 1], ln);
      assert e >= 0.0;
      assert 0.0 <= folds[n - 1][i][j] <= 1.0;
      assert 0.0 <= pow(folds[n - 1][i][j], e) <= 1.0;
    }
  }

  /** In both modes the combination of five probability maps is a
      probability map, given thresholds in (0, 1]. */
  lemma CombinedWithin(mode: string, folds: seq<Grid>, ths: seq<real>, pow: (real, real) -> real, ln: real -> real, h: nat, w: nat)
    requires |folds| == 5 && AllShaped(folds, h, w) && UnitMath(pow, ln)
    requires AllWithin(folds, h, w, 0.0, 1.0)
    requires forall k :: 0 <= k < |ths| ==> 0.0 < ths[k] <= 1.0
    requires mode == "th_0.5" || mode == "th_optimal"
    ensures GridWithin(Combined(mode, folds, ths, pow, ln, h, w).value, h, w, 0.0, 1.0)
  {
    var r := Combined(mode, folds, ths, pow, ln, h, w).value;
    if mode == "th_0.5" {
      MeanWithin(folds, h, w, 0.0, 1.0);
    } else {
      var n := Min(|ths|, |folds|);
      forall i, j | 0 <= i < h && 0 <= j < w
        ensures 0.0 <= r[i][j] <= 1.0
      {
        OptimalSumWithin(ths, folds, n, pow, ln, h, w, i, j);
      }
    }
  }

  /** Every tuned threshold lies in (0, 1], five per result feature. */
  lemma ThresholdsInRange(name: string)
    requires name in ResultFeatures
    ensures name in Thresholds && |Thresholds[name]| == FoldCount
    ensures forall k :: 0 <= k < |Thresholds[name]| ==> 0.0 < Thresholds[name][k] <= 1.0
  {
  }

  // ---------------------------------------------------------------- process

  /** The 9-channel network input: the crop and its two contrast-enhanced
      variants concatenated along the channel axis, transposed to CHW and
      scaled by 1/255. */
  function BuildInput(cb: CroppedBounds): (x: seq<Grid>)
    requires ImageShaped(cb.image, cb.size, cb.size, 3)
    requires ImageShaped(cb.contrastEnhanced5, cb.size, cb.size, 3)
    requires ImageShaped(cb.contrastEnhanced10, cb.size, cb.size, 3)
    ensures |x| == 9 && AllShaped(x, cb.size, cb.size)
  {
    var s := cb.size;
    var images := Concat(Concat(cb.image, cb.contrastEnhanced5, s, s), cb.contrastEnhanced10, s, s);
    assert ImageShaped(images, s, s, 9);
    var chw := ChannelsFirst(images, s, s, 9);
    seq(9, c requires 0 <= c < 9 => Divide(chw[c], 255.0, s, s))
  }

  /** Input channel c is channel c mod 3 of the crop (c < 3), of the first
      contrast-enhanced variant (3 <= c < 6) or of the second (c >= 6),
      divided by 255. */
  lemma InputLayout(cb: CroppedBounds, c: nat, i: nat, j: nat)
    requires ImageShaped(cb.image, cb.size, cb.size, 3)
    requires ImageShaped(cb.contrastEnhanced5, cb.size, cb.size, 3)
    requires ImageShaped(cb.contrastEnhanced10, cb.size, cb.size, 3)
    requires c < 9 && i < cb.size && j < cb.size
    ensures var src := if c < 3 then cb.image else if c < 6 then cb.contrastEnhanced5 else cb.contrastEnhanced10;
      BuildInput(cb)[c][i][j] == src[i][j][c % 3] / 255.0
  {
    var s := cb.size;
    var images := Concat(Concat(cb.image, cb.contrastEnhanced5, s, s), cb.contrastEnhanced10, s, s);
    assert images[i][j] == cb.image[i][j] + cb.contrastEnhanced5[i][j] + cb.contrastEnhanced10[i][j];
  }

  /** The collaborators of `process`: bounds extraction, cropping, the
      network of fold k of a feature group (after the sigmoid, one map per
      output channel) applied to an input, the inverse warp, and numpy's
      `**` and `log`. */
  datatype Collaborators = Collaborators(
    extract: Image -> Bounds,
    crop: (Bounds, nat) -> (Transform, CroppedBounds),
    net: (string, nat, seq<Grid>) -> seq<Grid>,
    warpInverse: (Transform, Grid) -> Grid,
    pow: (real, real) -> real,
    ln: real -> real)

  /** What `process` relies on its collaborators for, on this image: the
      mask covers the image, the crop is CropSize square with three channels
      per image, each network yields the channels `load_models` built it for
      at crop size, the inverse warp lands on the image's shape, and
      log 0.5 is non-zero. */
  ghost predicate Agree(co: Collaborators, image: Image) {
    var b := co.extract(image);
    var t := co.crop(b, CropSize).0;
    var cb := co.crop(b, CropSize).1;
    && Shaped(b.mask, b.h, b.w)
    && cb.size == CropSize
    && ImageShaped(cb.image, CropSize, CropSize, 3)
    && ImageShaped(cb.contrastEnhanced5, CropSize, CropSize, 3)
    && ImageShaped(cb.contrastEnhanced10, CropSize, CropSize, 3)
    && (forall f, k, x :: |co.net(f, k, x)| == OutputChannels(f) && AllShaped(co.net(f, k, x), CropSize, CropSize))
    && (forall g :: Shaped(co.warpInverse(t, g), b.h, b.w))
    && co.ln(0.5) != 0.0
  }

  /** Where a result feature comes from: its feature group and the channel
      of that group's networks. */
  function SourceOf(name: string): (string, nat) {
    if name == "rpe_degeneration" then ("pigment", 0)
    else if name == "hyperpigmentation" then ("pigment", 1)
    else (name, 0)
  }

  /** The network input of `process` once radius_fraction is applied. */
  function ProcessInput(co: Collaborators, image: Image, radiusFraction: real): (x: seq<Grid>)
    requires Agree(co, image)
    ensures |x| == 9 && AllShaped(x, CropSize, CropSize)
  {
    var b := co.extract(image);
    var cb := co.crop(b, CropSize).1;
    BuildInput(cb.(radius := radiusFraction * cb.radius))
  }

  /** The five fold maps of channel ch of a feature group's networks on x
      (`y_preds[:, ch]`, or the squeezed maps of a one-channel group). */
  function FoldMaps(co: Collaborators, x: seq<Grid>, group: string, ch: nat): (folds: seq<Grid>)
    requires forall f, k, x :: |co.net(f, k, x)| == OutputChannels(f) && AllShaped(co.net(f, k, x), CropSize, CropSize)
    requires ch < OutputChannels(group)
    ensures |folds| == FoldCount && AllShaped(folds, CropSize, CropSize)
  {
    var folds := seq(FoldCount, k requires 0 <= k < FoldCount => co.net(group, k, x)[ch]);
    assert forall k :: 0 <= k < FoldCount ==> AllShaped(co.net(group, k, x), CropSize, CropSize);
    folds
  }

  /** The map `process` stores under a result feature: the combined fold maps
      of its channel, warped back and zero outside the fundus mask. */
  function ExpectedMap(co: Collaborators, image: Image, radiusFraction: real, mode: string, name: string): (r: Grid)
    requires Agree(co, image) && name in ResultFeatures
    requires mode == "th_0.5" || mode == "th_optimal"
    ensures var b := co.extract(image); Shaped(r, b.h, b.w)
  {
    var b := co.extract(image);
    var t := co.crop(b, CropSize).0;
    var folds := FoldMaps(co, ProcessInput(co, image, radiusFraction), SourceOf(name).0, SourceOf(name).1);
    var combined := Combined(mode, folds, Thresholds[name], co.pow, co.ln, CropSize, CropSize).value;
    Masked(co.warpInverse(t, combined), b.mask, b.h, b.w)
  }

  /** What makes the stored maps probability maps: the networks end in a
      sigmoid, so each output lies in [0, 1], the inverse warp keeps a map
      in [0, 1] (it interpolates), and log and power behave as on reals. */
  ghost predicate ProbabilityPreserving(co: Collaborators, image: Image)
    requires Agree(co, image)
  {
    var b := co.extract(image);
    var t := co.crop(b, CropSize).0;
    && (forall f, k, x :: AllWithin(co.net(f, k, x), CropSize, CropSize, 0.0, 1.0))
    && (forall g :: Shaped(g, CropSize, CropSize) && GridWithin(g, CropSize, CropSize, 0.0, 1.0) ==>
          GridWithin(co.warpInverse(t, g), b.h, b.w, 0.0, 1.0))
    && UnitMath(co.pow, co.ln)
  }

  /** Each stored map is a probability map, in either mode. */
  lemma ExpectedMapWithin(co: Collaborators, image: Image, radiusFraction: real, mode: string, name: string)
    requires Agree(co, image) && name in ResultFeatures
    requires mode == "th_0.5" || mode == "th_optimal"
    requires ProbabilityPreserving(co, image)
    ensures var b := co.extract(image); GridWithin(ExpectedMap(co, image, radiusFraction, mode, name), b.h, b.w, 0.0, 1.0)
  {
    var b := co.extract(image);
    var t := co.crop(b, CropSize).0;
    var x := ProcessInput(co, image, radiusFraction);
    var src := SourceOf(name);
    var folds := FoldMaps(co, x, src.0, src.1);
    assert AllWithin(folds, CropSize, CropSize, 0.0, 1.0) by {
      assert AllWithin(co.net(src.0, 0, x), CropSize, CropSize, 0.0, 1.0);
      forall k, i, j | 0 <= k < |folds| && 0 <= i < CropSize && 0 <= j < CropSize
        ensures 0.0 <= folds[k][i][j] <= 1.0
      {
        assert folds[k] == co.net(src.0, k, x)[src.1];
        assert AllWithin(co.net(src.0, k, x), CropSize, CropSize, 0.0, 1.0);
      }
    }
    ThresholdsInRange(name);
    CombinedWithin(mode, folds, Thresholds[name], co.pow, co.ln, CropSize, CropSize);
  }

  /** The result dictionary: `bounds`, and one map per feature. */
  datatype Output = Output(bounds: Bounds, maps: map<string, Grid>)

  /** The elements of a list of names. */
  function Elements(names: seq<string>): set<string> {
    set name | name in names
  }

  /** A one-longer prefix holds one more name. */
  lemma ElementsGrow(names: seq<string>, n: nat)
    requires n < |names|
    ensures Elements(names[..n + 1]) == Elements(names[..n]) + {names[n]}
  {
    assert names[..n + 1] == names[..n] + [names[n]];
  }

  /** The features stored after the first n feature groups. */
  function NamesBefore(n: nat): set<string>
    requires n <= |Features|
  {
    if n == 0 then {} else NamesBefore(n - 1) + Elements(OutputNames(Features[n - 1]))
  }

  /** Every map stored so far is a result feature holding its expected map. */
  ghost predicate Stored(co: Collaborators, image: Image, radiusFraction: real, mode: string, maps: map<string, Grid>)
    requires Agree(co, image)
    requires mode == "th_0.5" || mode == "th_optimal"
  {
    forall name :: name in maps ==> name in ResultFeatures && maps[name] == ExpectedMap(co, image, radiusFraction, mode, name)
  }

  /** An array holding g. */
  method ToArray(g: Grid, h: nat, w: nat) returns (a: array2<real>)
    requires Shaped(g, h, w)
    ensures fresh(a) && a.Length0 == h && a.Length1 == w
    ensures Contents(a) == g
  {
    a := new real[h, w]((i, j) requires 0 <= i < h && 0 <= j < w => g[i][j]);
    var c := Contents(a);
    forall i | 0 <= i < h
      ensures c[i] == g[i]
    {
    }
  }

  /** The rows of an array, as a map. */
  function Contents(a: array2<real>): (g: Grid)
    reads a
    ensures Shaped(g, a.Length0, a.Length1)
    ensures forall i, j :: 0 <= i < a.Length0 && 0 <= j < a.Length1 ==> g[i][j] == a[i, j]
  {
    seq(a.Length0, i requires 0 <= i < a.Length0 reads a =>
      seq(a.Length1, j requires 0 <= j < a.Length1 reads a => a[i, j]))
  }

  /** `y[~mask] = 0`: zeroes, in place, every pixel outside the mask and
      leaves every pixel inside it as it was. */
  method ZeroOutsideMask(y: array2<real>, mask: seq<seq<bool>>)
    requires Shaped(mask, y.Length0, y.Length1)
    modifies y
    ensures Contents(y) == Masked(old(Contents(y)), mask, y.Length0, y.Length1)
  {
    ghost var before := Contents(y);
    for i := 0 to y.Length0
      invariant forall i', j :: 0 <= i' < y.Length0 && 0 <= j < y.Length1 ==>
        y[i', j] == if i' < i && !mask[i'][j] then 0.0 else before[i'][j]
    {
      for j := 0 to y.Length1
        invariant forall i', j' :: 0 <= i' < y.Length0 && 0 <= j' < y.Length1 ==>
          y[i', j'] == if (i' < i || (i' == i && j' < j)) && !mask[i'][j'] then 0.0 else before[i'][j']
      {
        if !mask[i][j] {
          y[i, j] := 0.0;
        }
      }
    }
    var after := Contents(y);
    var expected := Masked(before, mask, y.Length0, y.Length1);
    forall i | 0 <= i < y.Length0
      ensures after[i] == expected[i]
    {
    }
  }

  /** One feature's map: combine, warp back, zero outside the mask. */
  method FeatureMap(co: Collaborators, t: Transform, b: Bounds, folds: seq<Grid>, ths: seq<real>, mode: string)
    returns (m: Grid)
    requires |folds| > 0 && AllShaped(folds, CropSize, CropSize) && co.ln(0.5) != 0.0
    requires mode == "th_0.5" || mode == "th_optimal"
    requires Shaped(b.mask, b.h, b.w) && forall g :: Shaped(co.warpInverse(t, g), b.h, b.w)
    ensures m == Masked(co.warpInverse(t, Combined(mode, folds, ths, co.pow, co.ln, CropSize, CropSize).value), b.mask, b.h, b.w)
  {
    var y := CombineEnsemble(mode, folds, ths, co.pow, co.ln, CropSize, CropSize);
    var warped := co.warpInverse(t, y.value);
    var yOrig := ToArray(warped, b.h, b.w);
    ZeroOutsideMask(yOrig, b.mask);
    m := Contents(yOrig);
  }

  /** The five fold networks of a feature group run on x (`y_preds`). */
  method Predict(co: Collaborators, feature: string, x: seq<Grid>) returns (preds: seq<seq<Grid>>)
    ensures |preds| == FoldCount
    ensures forall k :: 0 <= k < FoldCount ==> preds[k] == co.net(feature, k, x)
  {
    preds := [];
    for k := 0 to FoldCount
      invariant |preds| == k
      invariant forall k' :: 0 <= k' < k ==> preds[k'] == co.net(feature, k', x)
    {
      preds := preds + [co.net(feature, k, x)];
    }
  }

  /** One iteration of the feature loop of `process`: stores the maps of the
      group's outputs, leaving every other entry as it was. */
  method StoreGroup(co: Collaborators, image: Image, radiusFraction: real, mode: string, feature: string, maps: map<string, Grid>)
    returns (maps': map<string, Grid>)
    requires mode == "th_0.5" || mode == "th_optimal"
    requires Agree(co, image) && feature in Features
    requires Stored(co, image, radiusFraction, mode, maps)
    ensures maps'.Keys == maps.Keys + Elements(OutputNames(feature))
    ensures Stored(co, image, radiusFraction, mode, maps')
  {
    var x := ProcessInput(co, image, radiusFraction);
    var preds := Predict(co, feature, x);
    maps' := maps;
    var names := OutputNames(feature);
    for ch := 0 to |names|
      invariant maps'.Keys == maps.Keys + Elements(names[..ch])
      invariant Stored(co, image, radiusFraction, mode, maps')
    {
      var m := ChannelMap(co, image, radiusFraction, mode, feature, ch, preds);
      StoredUpdate(co, image, radiusFraction, mode, maps', names[ch], m);
      maps' := maps'[names[ch] := m];
      ElementsGrow(names, ch);
    }
    assert names[..|names|] == names;
  }

  /** The body of the channel loop of `process`: channel ch of the fold
      predictions, combined, warped back and masked, is the map expected for
      that channel's output name. */
  method ChannelMap(co: Collaborators, image: Image, radiusFraction: real, mode: string, feature: string, ch: nat, preds: seq<seq<Grid>>)
    returns (m: Grid)
    requires mode == "th_0.5" || mode == "th_optimal"
    requires Agree(co, image) && feature in Features && ch < |OutputNames(feature)|
    requires |preds| == FoldCount
    requires forall k :: 0 <= k < FoldCount ==> preds[k] == co.net(feature, k, ProcessInput(co, image, radiusFraction))
    ensures OutputNames(feature)[ch] in ResultFeatures
    ensures m == ExpectedMap(co, image, radiusFraction, mode, OutputNames(feature)[ch])
  {
    var bounds := co.extract(image);
    var t := co.crop(bounds, CropSize).0;
    var x := ProcessInput(co, image, radiusFraction);
    var name := OutputNames(feature)[ch];
    assert SourceOf(name) == (feature, ch);
    var folds := seq(FoldCount, k requires 0 <= k < FoldCount => preds[k][ch]);
    assert folds == FoldMaps(co, x, feature, ch);
    m := FeatureMap(co, t, bounds, folds, Thresholds[name], mode);
  }

  /** Storing a result feature's expected map keeps every stored map
      expected. */
  lemma StoredUpdate(co: Collaborators, image: Image, radiusFraction: real, mode: string, maps: map<string, Grid>, name: string, m: Grid)
    requires Agree(co, image) && (mode == "th_0.5" || mode == "th_optimal")
    requires Stored(co, image, radiusFraction, mode, maps)
    requires name in ResultFeatures && m == ExpectedMap(co, image, radiusFraction, mode, name)
    ensures Stored(co, image, radiusFraction, mode, maps[name := m])
  {
  }

  /** `Processor.process(image, radius_fraction)` in mode `mode`: the result
      holds `bounds` and exactly the features drusen, rpe_degeneration,
      hyperpigmentation and RPD, each the combined maps of its own channel
      and thresholds, warped back and zero outside the fundus mask. */
  method Process(co: Collaborators, image: Image, radiusFraction: real, mode: string) returns (result: Output)
    requires mode == "th_0.5" || mode == "th_optimal"
    requires Agree(co, image)
    ensures result.bounds == co.extract(image)
    ensures result.maps.Keys == ResultFeatures
    ensures forall name :: name in result.maps ==> result.maps[name] == ExpectedMap(co, image, radiusFraction, mode, name)
  {
    var bounds := co.extract(image);
    var maps: map<string, Grid> := map[];
    for fi := 0 to |Features|
      invariant maps.Keys == NamesBefore(fi)
      invariant Stored(co, image, radiusFraction, mode, maps)
    {
      maps := StoreGroup(co, image, radiusFraction, mode, Features[fi], maps);
    }
    assert NamesBefore(3) == ResultFeatures;
    result := Output(bounds, maps);
  }

  // ---------------------------------------------------------------- properties of process

  /** Every pixel outside the fundus mask of a result map is exactly 0;
      every pixel inside keeps the value the inverse warp put there. */
  lemma MaskedResult(co: Collaborators, image: Image, radiusFraction: real, mode: string, name: string, i: nat, j: nat)
    requires Agree(co, image) && name in ResultFeatures
    requires mode == "th_0.5" || mode == "th_optimal"
    requires var b := co.extract(image); i < b.h && j < b.w
    ensures var b := co.extract(image);
      var t := co.crop(b, CropSize).0;
      var folds := FoldMaps(co, ProcessInput(co, image, radiusFraction), SourceOf(name).0, SourceOf(name).1);
      var warped := co.warpInverse(t, Combined(mode, folds, Thresholds[name], co.pow, co.ln, CropSize, CropSize).value);
      && (!b.mask[i][j] ==> ExpectedMap(co, image, radiusFraction, mode, name)[i][j] == 0.0)
      && (b.mask[i][j] ==> ExpectedMap(co, image, radiusFraction, mode, name)[i][j] == warped[i][j])
  {
  }

  /** The pigment networks are demultiplexed by channel: rpe_degeneration
      is channel 0 combined with its own thresholds, hyperpigmentation
      channel 1 with its own; drusen and RPD use their single channel. */
  lemma PigmentSplit(co: Collaborators, image: Image, radiusFraction: real, mode: string)
    requires Agree(co, image)
    requires mode == "th_0.5" || mode == "th_optimal"
    ensures var b := co.extract(image);
      var t := co.crop(b, CropSize).0;
      var x := ProcessInput(co, image, radiusFraction);
      && ExpectedMap(co, image, radiusFraction, mode, "rpe_degeneration")
        == Masked(co.warpInverse(t, Combined(mode, FoldMaps(co, x, "pigment", 0), Thresholds["rpe_degeneration"], co.pow, co.ln, CropSize, CropSize).value), b.mask, b.h, b.w)
      && ExpectedMap(co, image, radiusFraction, mode, "hyperpigmentation")
        == Masked(co.warpInverse(t, Combined(mode, FoldMaps(co, x, "pigment", 1), Thresholds["hyperpigmentation"], co.pow, co.ln, CropSize, CropSize).value), b.mask, b.h, b.w)
      && ExpectedMap(co, image, radiusFraction, mode, "drusen")
        == Masked(co.warpInverse(t, Combined(mode, FoldMaps(co, x, "drusen", 0), Thresholds["drusen"], co.pow, co.ln, CropSize, CropSize).value), b.mask, b.h, b.w)
      && ExpectedMap(co, image, radiusFraction, mode, "RPD")
        == Masked(co.warpInverse(t, Combined(mode, FoldMaps(co, x, "RPD", 0), Thresholds["RPD"], co.pow, co.ln, CropSize, CropSize).value), b.mask, b.h, b.w)
  {
  }

  /** In this model the cropped images are fixed when the crop is made,
      and the mask comes from the uncropped bounds, so every result map is
      the same for every radius_fraction. The source rescales the cropped
      bounds' radius and then reads the cropped images from that object,
      whose class is not part of this model. */
  lemma RadiusFractionHasNoEffect(co: Collaborators, image: Image, rf1: real, rf2: real, mode: string, name: string)
    requires Agree(co, image) && name in ResultFeatures
    requires mode == "th_0.5" || mode == "th_optimal"
    ensures ExpectedMap(co, image, rf1, mode, name) == ExpectedMap(co, image, rf2, mode, name)
  {
    assert ProcessInput(co, image, rf1) == ProcessInput(co, image, rf2);
  }

  /** With every fold network returning the same probability map p, mode
      `th_0.5` and an inverse warp that maps p to q, each result map is q
      inside the fundus mask and exactly 0 outside it. */
  lemma IdenticalFolds(co: Collaborators, image: Image, radiusFraction: real, name: string, p: Grid, q: Grid)
    requires Agree(co, image) && name in ResultFeatures
    requires forall f, k, x, ch :: 0 <= ch < |co.net(f, k, x)| ==> co.net(f, k, x)[ch] == p
    requires Shaped(p, CropSize, CropSize)
    requires co.warpInverse(co.crop(co.extract(image), CropSize).0, p) == q
    ensures var b := co.extract(image);
      forall i, j :: 0 <= i < b.h && 0 <= j < b.w ==>
        ExpectedMap(co, image, radiusFraction, "th_0.5", name)[i][j] == if b.mask[i][j] then q[i][j] else 0.0
  {
    var folds := FoldMaps(co, ProcessInput(co, image, radiusFraction), SourceOf(name).0, SourceOf(name).1);
    MeanOfCopies(folds, p, CropSize, CropSize);
  }
}
