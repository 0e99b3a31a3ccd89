/** Optic-disc edge and fovea localisation (src/landmarks.py): a 512 x 512
    crop is standardised and laid out CHW, each landmark network's ensemble
    of heatmaps is averaged, and the first maximum of the mean heatmap, taken
    as a pixel centre, is mapped back to image coordinates. The networks and
    the fundus geometry are collaborators passed in as functions. */
module Landmarks {
  import opened Wrappers
  import opened Raster
  import opened Fundus

  /** The landmark networks and the files they are loaded from (`paths`),
      in the dictionary's order. */
  const LandmarkNames: seq<string> := ["disc_edge", "fovea"]
  const ModelPaths: map<string, string> := map[
    "disc_edge" := "models/discedge_july24.pt",
    "fovea" := "models/fovea_july24.pt"]

  /** The crop size `bounds.crop(512)`. */
  const CropSize: nat := 512

  /** ImageNet channel statistics, repeated for the crop and its
      contrast-enhanced variant (`[...] * 2`). */
  const RgbMean: seq<real> := [0.485, 0.456, 0.406]
  const RgbStd: seq<real> := [0.229, 0.224, 0.225]
  const ChannelMean: seq<real> := RgbMean + RgbMean
  const ChannelStd: seq<real> := RgbStd + RgbStd

  // ---------------------------------------------------------------- preprocess

  /** `(images - mean) / std` on a six-channel HWC image. */
  function Standardize(images: Image, h: nat, w: nat): (r: Image)
    requires ImageShaped(images, h, w, 6)
    ensures ImageShaped(r, h, w, 6)
    ensures forall i, j, c :: 0 <= i < h && 0 <= j < w && 0 <= c < 6 ==>
      r[i][j][c] == (images[i][j][c] - RgbMean[c % 3]) / RgbStd[c % 3]
  {
    assert forall c :: 0 <= c < 6 ==> ChannelMean[c] == RgbMean[c % 3] && ChannelStd[c] == RgbStd[c % 3];
    seq(h, i requires 0 <= i < h => seq(w, j requires 0 <= j < w =>
      seq(6, c requires 0 <= c < 6 => (images[i][j][c] - ChannelMean[c]) / ChannelStd[c])))
  }

  /** Standardisation loses nothing: scaling back by the channel's standard
      deviation and adding its mean gives the original value. */
  lemma StandardizeInverts(images: Image, h: nat, w: nat, i: nat, j: nat, c: nat)
    requires ImageShaped(images, h, w, 6) && i < h && j < w && c < 6
    ensures Standardize(images, h, w)[i][j][c] * RgbStd[c % 3] + RgbMean[c % 3] == images[i][j][c]
  {
    var s := RgbStd[c % 3];
    assert s != 0.0;
    var v := images[i][j][c] - RgbMean[c % 3];
    assert v / s * s == v;
  }

  /** The collaborators of the landmark step: bounds extraction, cropping,
      the stack of ensemble heatmaps (`heatmaps[:, 0, 0]`) of the network
      loaded from a path, and the inverse crop transform on a point. */
  datatype Collaborators = Collaborators(
    extract: Image -> Bounds,
    crop: (Bounds, nat) -> (Transform, CroppedBounds),
    net: (string, seq<Grid>) -> seq<Grid>,
    applyInverse: (Transform, Point) -> Point)

  /** The bounds `preprocess` uses: the supplied ones unchanged, or, when none
      are supplied, those extracted from the image. */
  function ResolvedBounds(co: Collaborators, image: Image, bounds: Option<Bounds>): (b: Bounds)
    ensures bounds.Some? ==> b == bounds.value
    ensures bounds.None? ==> b == co.extract(image)
  {
    match bounds
    case None => co.extract(image)
    case Some(given) => given
  }

  /** What `preprocess` relies on: a 512 x 512 crop with three channels in
      the image and in its contrast-enhanced variant. */
  predicate CropAgrees(cb: CroppedBounds) {
    && ImageShaped(cb.image, CropSize, CropSize, 3)
    && ImageShaped(cb.contrastEnhanced5, CropSize, CropSize, 3)
  }

  /** `preprocess(image, bounds)`: the crop transform and the six-channel,
      standardised CHW network input. */
  function Preprocess(co: Collaborators, image: Image, bounds: Option<Bounds>): (r: (Transform, seq<Grid>))
    requires CropAgrees(co.crop(ResolvedBounds(co, image, bounds), CropSize).1)
    ensures r.0 == co.crop(ResolvedBounds(co, image, bounds), CropSize).0
    ensures |r.1| == 6 && AllShaped(r.1, CropSize, CropSize)
  {
    var tc := co.crop(ResolvedBounds(co, image, bounds), CropSize);
    var images := Concat(tc.1.image, tc.1.contrastEnhanced5, CropSize, CropSize);
    assert ImageShaped(images, CropSize, CropSize, 6);
    (tc.0, ChannelsFirst(Standardize(images, CropSize, CropSize), CropSize, CropSize, 6))
  }

  /** Input channel c at pixel (i, j) is channel c mod 3 of the crop (c < 3)
      or of its contrast-enhanced variant (c >= 3), standardised with the
      statistics of channel c mod 3. */
  lemma PreprocessLayout(co: Collaborators, image: Image, bounds: Option<Bounds>, c: nat, i: nat, j: nat)
    requires CropAgrees(co.crop(ResolvedBounds(co, image, bounds), CropSize).1)
    requires c < 6 && i < CropSize && j < CropSize
    ensures var cb := co.crop(ResolvedBounds(co, image, bounds), CropSize).1;
      var src := if c < 3 then cb.image else cb.contrastEnhanced5;
      Preprocess(co, image, bounds).1[c][i][j] == (src[i][j][c % 3] - RgbMean[c % 3]) / RgbStd[c % 3]
  {
    var cb := co.crop(ResolvedBounds(co, image, bounds), CropSize).1;
    var images := Concat(cb.image, cb.contrastEnhanced5, CropSize, CropSize);
    assert images[i][j] == cb.image[i][j] + cb.contrastEnhanced5[i][j];
  }

  // ---------------------------------------------------------------- get_coordinate

  /** Index of the first maximum of a non-empty sequence (numpy's `argmax`,
      which keeps the earliest of equal maxima). */
  function ArgMax(v: seq<real>): (k: nat)
    requires |v| > 0
    ensures k < |v|
    ensures forall i :: 0 <= i < |v| ==> v[i] <= v[k]
    ensures forall i :: 0 <= i < k ==> v[i] < v[k]
  {
    if |v| == 1 then 0
    else
      var k' := ArgMax(v[..|v| - 1]);
      if v[|v| - 1] > v[k'] then |v| - 1 else k'
  }

  /** Cell (row, col) holds a maximum of the heatmap, and every cell before it
      in row-major order holds strictly less. */
  predicate FirstPeakAt(m: Grid, h: nat, w: nat, row: nat, col: nat)
    requires Shaped(m, h, w)
  {
    && row < h && col < w
    && (forall i, j :: 0 <= i < h && 0 <= j < w ==> m[i][j] <= m[row][col])
    && (forall i, j :: 0 <= i < h && 0 <= j < w && (i < row || (i == row && j < col)) ==> m[i][j] < m[row][col])
  }

  /** Row-major order of cells is the order of their flat indices. */
  lemma RowMajorOrder(i: nat, j: nat, r: nat, c: nat, w: nat)
    requires j < w && c < w
    ensures i * w + j < r * w + c <==> i < r || (i == r && j < c)
  {
    if i < r {
      MulMonotone(i + 1, r, w);
    } else if i > r {
      MulMonotone(r + 1, i, w);
    }
  }

  lemma MulMonotone(a: nat, b: nat, w: nat)
    requires a <= b
    ensures a * w <= b * w
  {
    assert b * w == a * w + (b - a) * w;
  }

  /** numpy's `unravel_index` for a row length w: flat index k is the cell
      (k / w, k % w). */
  function Cell(k: nat, w: nat): (c: (nat, nat))
    requires w > 0
    ensures c.0 * w + c.1 == k && c.1 < w
  {
    (k / w, k % w)
  }

  /** The cell of a flat index holding the first maximum of `Flatten(m)` is
      the first peak of m. */
  lemma FlatMaxIsFirstPeak(m: Grid, h: nat, w: nat, k: nat)
    requires Shaped(m, h, w) && h > 0 && w > 0 && k < h * w
    requires |Flatten(m)| == h * w
    requires forall i :: 0 <= i < h * w ==> Flatten(m)[i] <= Flatten(m)[k]
    requires forall i :: 0 <= i < k ==> Flatten(m)[i] < Flatten(m)[k]
    ensures Cell(k, w).0 < h
    ensures FirstPeakAt(m, h, w, Cell(k, w).0, Cell(k, w).1)
  {
    Unravel(k, h, w);
    var (row, col) := Cell(k, w);
    FlattenIndex(m, h, w, row, col);
    forall i, j | 0 <= i < h && 0 <= j < w
      ensures m[i][j] <= m[row][col]
      ensures (i < row || (i == row && j < col)) ==> m[i][j] < m[row][col]
    {
      FlattenIndex(m, h, w, i, j);
      RowMajorOrder(i, j, row, col, w);
    }
  }

  /** `np.unravel_index(heatmap.argmax(), heatmap.shape)`, or None when the
      heatmap is empty (numpy's argmax raises there). */
  function Peak(m: Grid, h: nat, w: nat): (r: Option<(nat, nat)>)
    requires Shaped(m, h, w)
    ensures r.Some? <==> h > 0 && w > 0
    ensures r.Some? ==> FirstPeakAt(m, h, w, r.value.0, r.value.1)
  {
    if h == 0 || w == 0 then None
    else
      var flat := Flatten(m);
      FlattenLength(m, h, w);
      var k := ArgMax(flat);
      FlatMaxIsFirstPeak(m, h, w, k);
      Some(Cell(k, w))
  }

  /** A heatmap has at most one first peak: the cell `get_coordinate` picks is
      determined by the heatmap alone. */
  lemma FirstPeakUnique(m: Grid, h: nat, w: nat, r1: nat, c1: nat, r2: nat, c2: nat)
    requires Shaped(m, h, w)
    requires FirstPeakAt(m, h, w, r1, c1) && FirstPeakAt(m, h, w, r2, c2)
    ensures r1 == r2 && c1 == c2
  {
    assert m[r1][c1] == m[r2][c2];
  }

  /** `get_coordinate(heatmap)`: the centre (column + 0.5, row + 0.5) of the
      first maximum in row-major order; x comes from the column, y from the
      row, and the point lies inside the heatmap. None for an empty heatmap. */
  function GetCoordinate(m: Grid, h: nat, w: nat): (p: Option<Point>)
    requires Shaped(m, h, w)
    ensures p.Some? <==> h > 0 && w > 0
    ensures p.Some? ==> 0.5 <= p.value.x <= w as real - 0.5 && 0.5 <= p.value.y <= h as real - 0.5
    ensures p.Some? ==> exists row: nat, col: nat ::
      (FirstPeakAt(m, h, w, row, col) && p.value == Point(col as real + 0.5, row as real + 0.5))
  {
    match Peak(m, h, w)
    case None => None
    case Some(cell) => Some(Point(cell.1 as real + 0.5, cell.0 as real + 0.5))
  }

  /** A heatmap whose cell (row, col) is strictly above every other cell
      yields the centre of that cell. */
  lemma SinglePeak(m: Grid, h: nat, w: nat, row: nat, col: nat)
    requires Shaped(m, h, w) && row < h && col < w
    requires forall i, j :: 0 <= i < h && 0 <= j < w && (i != row || j != col) ==> m[i][j] < m[row][col]
    ensures GetCoordinate(m, h, w) == Some(Point(col as real + 0.5, row as real + 0.5))
  {
    var cell := Peak(m, h, w).value;
    assert FirstPeakAt(m, h, w, row, col);
    FirstPeakUnique(m, h, w, cell.0, cell.1, row, col);
  }

  // ---------------------------------------------------------------- LandmarksProcessor.process

  /** What `process` relies on its collaborators for: the crop preprocess
      needs, and networks whose ensemble stacks are non-empty and hold
      rows x cols heatmaps. */
  ghost predicate Agree(co: Collaborators, image: Image, bounds: Option<Bounds>, rows: nat, cols: nat) {
    && CropAgrees(co.crop(ResolvedBounds(co, image, bounds), CropSize).1)
    && (forall path, x :: |co.net(path, x)| > 0 && AllShaped(co.net(path, x), rows, cols))
  }

  /** The coordinate `process` stores for a landmark: the peak of the mean
      heatmap of its network, mapped back through the crop transform. */
  function Landmark(co: Collaborators, image: Image, bounds: Option<Bounds>, rows: nat, cols: nat, name: string): (p: Option<Point>)
    requires Agree(co, image, bounds, rows, cols) && name in ModelPaths
    ensures p.Some? <==> rows > 0 && cols > 0
  {
    var tx := Preprocess(co, image, bounds);
    var heatmap := Mean(co.net(ModelPaths[name], tx.1), rows, cols);
    match GetCoordinate(heatmap, rows, cols)
    case None => None
    case Some(q) => Some(co.applyInverse(tx.0, q))
  }

  /** `LandmarksProcessor.process(image, bounds)`: the coordinates of exactly
      `disc_edge` and `fovea`, each the mapped-back peak of its own network's
      mean heatmap; None (argmax raises) when the heatmaps are empty. */
  method Process(co: Collaborators, image: Image, bounds: Option<Bounds>, rows: nat, cols: nat)
    returns (coordinates: Option<map<string, Point>>)
    requires Agree(co, image, bounds, rows, cols)
    ensures coordinates.Some? <==> rows > 0 && cols > 0
    ensures coordinates.Some? ==> coordinates.value.Keys == {"disc_edge", "fovea"}
    ensures coordinates.Some? ==> forall name :: name in coordinates.value ==>
      Some(coordinates.value[name]) == Landmark(co, image, bounds, rows, cols, name)
  {
    var tx := Preprocess(co, image, bounds);
    var coords: map<string, Point> := map[];
    for n := 0 to |LandmarkNames|
      invariant coords.Keys == set k | 0 <= k < n :: LandmarkNames[k]
      invariant n > 0 ==> rows > 0 && cols > 0
      invariant forall name :: name in coords ==> name in ModelPaths && Some(coords[name]) == Landmark(co, image, bounds, rows, cols, name)
    {
      var name := LandmarkNames[n];
      var heatmaps := co.net(ModelPaths[name], tx.1);
      var heatmap := Mean(heatmaps, rows, cols);
      var p := GetCoordinate(heatmap, rows, cols);
      if p.None? {
        return None;
      }
      coords := coords[name := co.applyInverse(tx.0, p.value)];
    }
    assert coords.Keys == {"disc_edge", "fovea"} by {
      assert LandmarkNames[0] == "disc_edge" && LandmarkNames[1] == "fovea";
    }
    return Some(coords);
  }
}
