/** What the pipeline receives from the fundus-geometry collaborators, which
    this model treats as opaque: bounds extraction (`get_cfi_bounds`),
    cropping (`bounds.crop`) and the two directions of the crop transform
    (`T.warp_inverse`, `T.apply_inverse`). */
module Fundus {

  /** A point (x, y) in image coordinates; x runs along a row (the column
      index), y down the image (the row index). */
  datatype Point = Point(x: real, y: real)

  /** The result of `get_cfi_bounds` on an h-by-w image: the circular fundus
      mask over the image, its radius, and what `bounds.to_list()` reports
      under the column names `bounds.list_names`. */
  datatype Bounds = Bounds(
    h: nat,
    w: nat,
    mask: seq<seq<bool>>,
    radius: real,
    listNames: seq<string>,
    listValues: seq<real>)

  /** The canonical size-by-size crop that `bounds.crop(size)` returns: the
      cropped image and its two contrast-enhanced variants (layout HWC, three
      channels each) and the radius of its validity circle. */
  datatype CroppedBounds = CroppedBounds(
    size: nat,
    image: seq<seq<seq<real>>>,
    contrastEnhanced5: seq<seq<seq<real>>>,
    contrastEnhanced10: seq<seq<seq<real>>>,
    radius: real)

  /** The transform `bounds.crop` returns alongside the crop; the pipeline only
      hands it back to `warp_inverse` and `apply_inverse`. */
  datatype Transform = Transform(id: nat)
}
