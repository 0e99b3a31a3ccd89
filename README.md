# cfi-amd in Dafny

cfi-amd grades age-related macular degeneration (AMD) on colour fundus
images (CFI). Its pipeline has four parts:

- It segments drusen, RPD, hyperpigmentation and RPE degeneration with
  five-fold UNet ensembles.
- It locates the optic-disc edge and the fovea.
- It tabulates per-image results.
- It fetches the model weights it needs.

This project models the deterministic logic around the networks and proves
what that logic promises. The models are pure Dafny, with the collaborators
passed in as function-valued parameters: the networks, the fundus geometry
(`get_cfi_bounds`, `bounds.crop`, `warp_inverse`, `apply_inverse`), numpy's
`log` and `**`, downloads and archive listings.

- `Processor` (`cfi_amd/processor.py`):
  - `combine_ensemble` in both modes. `th_0.5` takes the pointwise mean.
    `th_optimal` accumulates `p ** (ln th / ln 0.5)` in a loop over
    `zip(thresholds, y_preds)` and divides by 5. Any other mode gives None.
  - the 9-channel network input.
  - the in-place zeroing outside the fundus mask, over an `array2`.
  - the pigment channel split.
  - the assembly of the result dictionary.
  - the checkpoint paths and output channels of `load_models`.
- `Landmarks` (`src/landmarks.py`):
  - the standardisation and CHW layout of `preprocess`.
  - `get_coordinate`, as the first maximum in row-major order of the
    heatmap, reported as that cell's centre.
  - the loop of `LandmarksProcessor.process`.
- `Reporting` (`src/main.py`):
  - the per-row isolation loop of `main`.
  - `export_results_full` and `export_results_area`. Each `row_out` is a
    `RowOut` object that is appended to `rows` before it is extended, as in
    the source.
  - the laterality rule of `get_etdrs_masks`.
  - the selection rule of `export_features`.
- `Resources` (`cfi_amd/resources.py`):
  - `strip_models_prefix` and both branches of `_unzip`.
  - `find_repo_root`.
  - `get_models_base_dir`.
  - `ensure_models_downloaded` over `ASSETS`.

  These work on a file system given as a set of file paths and a set of
  directory paths. A `FileSystem` class updates it in place.
- `UNetWiring` (`src/model.py`): the `(in, out)` channel pairs built by
  `ResidualBlock.__init__` and `UNet.__init__`, and `forward` on channel
  counts, skip connections included.
- `Raster`: the numpy operations used above, on `seq<seq<real>>` maps.
- `Fundus`: the value types the geometry collaborators return.
- `Wrappers`: `Option`.

Two consequences of the code are worth stating on their own:

- **radius_fraction.** `process` rescales only `bounds_cropped.radius`
  (`cfi_amd/processor.py:109`). The network input is built from the cropped
  images (`cfi_amd/processor.py:111-117`), and the mask applied to every
  output comes from the uncropped `bounds` (`cfi_amd/processor.py:139,145`).
  In this model the cropped images are fixed when the crop is made, so the
  output does not depend on `radius_fraction`
  (`Processor.RadiusFractionHasNoEffect`).
- **Constant-probability networks.** When every fold returns the same map, the
  `th_0.5` result is that map, warped back and masked
  (`Processor.IdenticalFolds`). In `th_optimal` each fold's value is raised to
  its own exponent `ln th / ln 0.5` (`cfi_amd/processor.py:102`). The two
  modes agree when every threshold is 0.5 (`Processor.HalfThresholdsGiveMean`).
  In both modes every stored map is a probability map
  (`Processor.ExpectedMapWithin`).

## Model

| member | source | states |
|---|---|---|
| Raster.Constant | cfi_amd/processor.py:100 | `np.zeros_like`: an h-by-w map holding the given value everywhere |
| Raster.Add | cfi_amd/processor.py:102 | the pointwise sum of two maps of one shape |
| Raster.Divide | cfi_amd/processor.py:103 | the pointwise quotient of a map by a non-zero constant |
| Raster.Mean | cfi_amd/processor.py:98 | `np.mean(axis=0)`: each pixel is the sum of the stack's values there over the stack's size |
| Raster.SumOfCopies | cfi_amd/processor.py:98 | summing n copies of a map gives n times its value at every pixel |
| Raster.MeanOfCopies | cfi_amd/processor.py:98 | the mean of a stack of identical maps is that map |
| Raster.SumWithin | cfi_amd/processor.py:98 | a sum of n values in [lo, hi] lies in [n lo, n hi] |
| Raster.MeanWithin | cfi_amd/processor.py:98 | the mean never leaves the range of the maps it averages, so the mean of probability maps is a probability map |
| Raster.Masked | cfi_amd/processor.py:145 | pixels outside the mask are 0, pixels inside keep their value |
| Raster.AtLeast | src/main.py:30 | `result >= 0.5`: a pixel is set iff its value reaches the threshold |
| Raster.Concat | cfi_amd/processor.py:111-115 | concatenation on the channel axis: each pixel has as many channels as the two images together; the first image's channels come first, in order, then the second's |
| Raster.ChannelsFirst | cfi_amd/processor.py:117 | the HWC to CHW transpose: map k at (i, j) is channel k of pixel (i, j) |
| Raster.FlattenLength | src/landmarks.py:28 | a row-major flattening of an h-by-w map has h * w elements |
| Raster.FlattenIndex | src/landmarks.py:28 | flat index i * w + j holds cell (i, j) |
| Raster.Unravel | src/landmarks.py:28 | `unravel_index`: a flat index k below h * w is row k / w, column k % w, both in range |
| UNetWiring.ResidualBlock | src/model.py:5-29 | a 1x1 projection exactly when in != out; every convolution of the block has stride 1 and, for an odd kernel, keeps the spatial size |
| UNetWiring.Downsample | src/model.py:40-46 | with kernel 3 and stride 2, spatial size n becomes ceil(n / 2), channels in to out |
| UNetWiring.Upsample | src/model.py:49-57 | for an odd kernel, spatial size n becomes n * stride |
| UNetWiring.UpsampleInvertsDownsample | src/model.py:40-57 | an upsample restores the even size its downsample halved, so each skip connection meets a tensor of its own size |
| UNetWiring.BuildUNet | src/model.py:60-94 | a network exactly when filters is non-empty (`filters[0]` raises otherwise), with one down block, downsample, upsample and up block per filter |
| UNetWiring.BlockApply | src/model.py:31-37 | a result only when the chain accepts the input, and, with a projection, only for the projection's input count |
| UNetWiring.ResidualBlockShape | src/model.py:5-29 | a 1x1 projection iff in != out; one in-to-out convolution, then convs - 1 out-to-out ones (none when convs < 2), all with stride 1 and padding kernel // 2; the block accepts exactly `in` channels and yields `out` |
| UNetWiring.ChainedOut | src/model.py:34-35 | a chained convolution list accepts exactly its first input count and yields its last output count |
| UNetWiring.WiredApply | src/model.py:31-37 | a consistently wired residual block accepts exactly its input count and yields its output count, the residual sum included |
| UNetWiring.LayerChannels | src/model.py:70-94 | down block 0 maps in_channels to filters[0], down block i > 0 maps filters[i] to itself; downsample[i] maps filters[i] to the next level, the last to bottleneck_filters; upsample[i] goes back, with padding 1 and output padding 1; up block i maps 2 * filters[i] to filters[i]; the bottleneck keeps bottleneck_filters; the output layer maps filters[0] to out_channels; all four lists have one entry per filter |
| UNetWiring.LayersMatchWellWired | src/model.py:71-109 | layers with those channels chain: each downsample takes its down block's output, each next down block its downsample's output, each up block its upsample's output plus the skip of its own level |
| UNetWiring.LayersMatchDown | src/model.py:71-104 | with those channels each downsample takes its down block's output, and the next down block or the bottleneck takes the downsample's |
| UNetWiring.LayersMatchUp | src/model.py:81-109 | with those channels the last upsample takes the bottleneck's output, each other upsample the output of the up block above, and each up block its upsample's output plus its level's skip |
| UNetWiring.BuildUNetWellWired | src/model.py:61-94 | every UNet the constructor builds is consistently wired, with in_channels in and out_channels out |
| UNetWiring.ResidualForward | src/model.py:31-37 | `ResidualBlock.forward` on channel counts: a wired block gives its output count on exactly its input count, and nothing otherwise |
| UNetWiring.DownPath | src/model.py:99-102 | the down loop accepts exactly the first block's input count, pushes every down block's output on `x_skip` in order, and ends at the last downsample's output |
| UNetWiring.UpPath | src/model.py:106-109 | walking `zip(upsample, up_blocks, x_skip)` in reverse, fed the bottleneck's output and the pushed skips, ends at the first up block's output |
| UNetWiring.Forward | src/model.py:96-113 | a well-wired UNet accepts exactly its input channel count and then yields its output channel count |
| Processor.LoadModelsPaths | cfi_amd/processor.py:41-52 | exactly five checkpoints `<root>/models/<feature>/model_<i>.ckpt` for i = 0..4 in order, all distinct; two output channels exactly for `pigment` |
| Processor.ModelNetwork | cfi_amd/processor.py:13-21 | `Model(out_channels)` builds a consistently wired UNet with 9 input channels and the output channels its feature needs |
| Processor.LoadModels | cfi_amd/processor.py:41-52 | five checkpoints, each a path of three components under the package's parent directory |
| Processor.Exponent | cfi_amd/processor.py:102 | `ln th / ln 0.5` is 1 when ln th equals ln 0.5, and non-negative when ln 0.5 < 0 and ln th <= 0 |
| Processor.Power | cfi_amd/processor.py:102 | `y_pred ** e` pointwise, through the given power function |
| Processor.OptimalSum | cfi_amd/processor.py:100-102 | the `th_optimal` accumulator after n pairs keeps the folds' shape |
| Processor.Combined | cfi_amd/processor.py:96-103 | a map exactly for the modes `th_0.5` and `th_optimal` (there is no else branch), of the folds' shape |
| Processor.CombineEnsemble | cfi_amd/processor.py:96-103 | a result only for the modes `th_0.5` and `th_optimal`: the pointwise mean, or the loop's accumulated sum of `p ** (ln th / ln 0.5)` over the zipped pairs, divided by 5 |
| Processor.HalfThresholdSum | cfi_amd/processor.py:100-102 | with every threshold 0.5 the accumulator is the plain sum of the folds |
| Processor.HalfThresholdsGiveMean | cfi_amd/processor.py:96-103 | with five folds and every threshold 0.5, `th_optimal` gives exactly the `th_0.5` map |
| Processor.MeanModeRange | cfi_amd/processor.py:97-98 | in `th_0.5` the combination of probability maps stays in [0, 1], and identical folds combine to that fold |
| Processor.OptimalSumWithin | cfi_amd/processor.py:100-102 | with fold maps in [0, 1] and thresholds in (0, 1], the accumulator after n pairs lies in [0, n] at every pixel |
| Processor.CombinedWithin | cfi_amd/processor.py:96-103 | in both modes five probability maps combine to a probability map, given thresholds in (0, 1] |
| Processor.ThresholdsInRange | cfi_amd/processor.py:81-86 | five tuned thresholds per result feature, each in (0, 1] |
| Processor.BuildInput | cfi_amd/processor.py:111-117 | the network input has 9 maps of crop size |
| Processor.InputLayout | cfi_amd/processor.py:111-117 | input map c is channel c mod 3 of the crop (c < 3), of the first contrast-enhanced image (3 <= c < 6) or of the second, divided by 255 |
| Processor.ProcessInput | cfi_amd/processor.py:106-117 | the input after the crop and radius_fraction has 9 maps of size 1024 |
| Processor.FoldMaps | cfi_amd/processor.py:124-135 | `y_preds[:, ch]`: five fold maps of crop size |
| Processor.ExpectedMap | cfi_amd/processor.py:136-146 | a stored map has the shape of the original image |
| Processor.ExpectedMapWithin | cfi_amd/processor.py:123-146 | in both modes every stored map lies in [0, 1], given network outputs in [0, 1] (the sigmoid) and an inverse warp that keeps [0, 1] |
| Processor.ToArray | cfi_amd/processor.py:138 | a fresh h-by-w array holding the map |
| Processor.Contents | cfi_amd/processor.py:138 | an array's rows as a map of its shape, cell for cell |
| Processor.ZeroOutsideMask | cfi_amd/processor.py:139 | `y_orig[~bounds.mask] = 0` in place: the array becomes its old contents masked, zero outside and unchanged inside |
| Processor.FeatureMap | cfi_amd/processor.py:142-146 | one feature's map is its combined folds, inverse-warped, then zeroed outside the fundus mask |
| Processor.Predict | cfi_amd/processor.py:124-130 | `y_preds` holds the five fold networks' outputs in fold order |
| Processor.ChannelMap | cfi_amd/processor.py:134-146 | channel ch of the fold predictions, combined, warped back and masked, is the expected map of that channel's output name |
| Processor.StoreGroup | cfi_amd/processor.py:132-146 | one feature group adds exactly its output names (rpe_degeneration and hyperpigmentation for pigment) and stores each one's expected map |
| Processor.Process | cfi_amd/processor.py:105-147 | the result holds `bounds` and exactly drusen, rpe_degeneration, hyperpigmentation and RPD, each the expected map of its own channel and thresholds |
| Processor.MaskedResult | cfi_amd/processor.py:138-145 | every result pixel outside the fundus mask is exactly 0, every pixel inside keeps the inverse warp's value |
| Processor.PigmentSplit | cfi_amd/processor.py:132-146 | rpe_degeneration is pigment channel 0 with its own thresholds, hyperpigmentation channel 1 with its own, drusen and RPD their single channel |
| Processor.RadiusFractionHasNoEffect | cfi_amd/processor.py:109 | every result map is the same for any two radius fractions |
| Processor.IdenticalFolds | cfi_amd/processor.py:97-98 | with every fold returning one map p that the inverse warp takes to q, each `th_0.5` result is q inside the mask and 0 outside |
| Landmarks.Standardize | src/landmarks.py:11-22 | channel c of every pixel becomes (v - mean[c mod 3]) / std[c mod 3] over six channels |
| Landmarks.StandardizeInverts | src/landmarks.py:22 | scaling back by std[c mod 3] and adding mean[c mod 3] restores the original value |
| Landmarks.ResolvedBounds | src/landmarks.py:14-16 | supplied bounds are used unchanged; bounds are extracted only when none are supplied |
| Landmarks.Preprocess | src/landmarks.py:10-24 | the crop transform comes from the resolved bounds, and the input has 6 maps of 512 x 512 |
| Landmarks.PreprocessLayout | src/landmarks.py:18-24 | input map c at (i, j) is channel c mod 3 of the crop (c < 3) or of its contrast-enhanced variant, standardised with channel c mod 3's statistics |
| Landmarks.ArgMax | src/landmarks.py:28 | `argmax`: an index holding a maximum, every earlier index holding strictly less |
| Landmarks.Cell | src/landmarks.py:28 | `unravel_index` of a flat index: row * w + column is the index and the column is below w |
| Landmarks.FlatMaxIsFirstPeak | src/landmarks.py:28 | the cell of the flat first maximum is the first maximum of the heatmap in row-major order |
| Landmarks.RowMajorOrder | src/landmarks.py:28 | flat indices order cells row by row, then column by column |
| Landmarks.Peak | src/landmarks.py:28 | a cell exactly when the heatmap is non-empty; that cell holds a maximum and every cell before it in row-major order holds strictly less |
| Landmarks.FirstPeakUnique | src/landmarks.py:28 | a heatmap has only one first peak |
| Landmarks.GetCoordinate | src/landmarks.py:27-29 | (column + 0.5, row + 0.5) of the first peak, with 0.5 <= x <= W - 0.5 and 0.5 <= y <= H - 0.5; None for an empty heatmap |
| Landmarks.SinglePeak | src/landmarks.py:27-29 | a heatmap whose cell (row, col) is strictly above all others yields (col + 0.5, row + 0.5) |
| Landmarks.Landmark | src/landmarks.py:48-52 | a landmark's point exists exactly when the heatmaps are non-empty |
| Landmarks.Process | src/landmarks.py:43-53 | exactly the keys disc_edge and fovea, each the mapped-back first peak of its own network's mean heatmap |
| Reporting.EntryFor | src/main.py:137-143 | the entry keeps its row; it has a summary exactly when processing succeeded, and then bounds and coordinates too, all taken from the outcome |
| Reporting.Batch | src/main.py:133-143 | one entry per input row |
| Reporting.RunBatch | src/main.py:133-143 | one entry per row, in input order; a failing row gives (row, None, None, None) and the loop goes on |
| Reporting.BatchSplits | src/main.py:135-143 | a batch's entries are its parts' entries: a row's entry depends on that row alone |
| Reporting.RowOut.constructor | src/main.py:84 | `row_out = [row.identifier, row.path]` |
| Reporting.RowOut.Extend | src/main.py:87 | `row_out += more` extends the object in place |
| Reporting.Nulls | src/main.py:87 | `[None] * n`: n empty cells |
| Reporting.CellsOf | src/main.py:101 | the cells the listed rows hold at the end, in order |
| Reporting.SummaryHeader | src/main.py:74-78 | as many summary columns as features times keys |
| Reporting.HeaderBlocks | src/main.py:74-78 | one block of key columns per feature |
| Reporting.SummaryHeaderIndex | src/main.py:74-78 | summary column f * \|keys\| + k is `<feature f>_<key k>` (feature-major, drusen, RPD, hyperpigmentation, rpe_degeneration) |
| Reporting.SummaryCells | src/main.py:89-91 | as many summary cells as features times keys |
| Reporting.CellBlocks | src/main.py:89-91 | one block of values per feature |
| Reporting.SummaryCellsIndex | src/main.py:89-91 | summary cell f * \|keys\| + k is feature f's value for key k |
| Reporting.SummaryPart | src/main.py:86-91 | a summary part, present or padded with empty cells, has features times keys cells |
| Reporting.FirstSuccess | src/main.py:65-71 | the first entry with a summary, or None exactly when no entry has one |
| Reporting.CoordCells | src/main.py:99 | four coordinate cells |
| Reporting.FullRow | src/main.py:83-99 | a row starts with identifier and path; a failed row has as many cells as the header |
| Reporting.FullRest | src/main.py:86-99 | after identifier and path, a failed row holds only empty cells, one per summary, bounds and coordinate column; a successful row holds its summary values, `to_list` and the four coordinates |
| Reporting.FullHeader | src/main.py:74-101 | `identifier`, `path`, the summary columns, `list_names`, then disc_edge_x, disc_edge_y, fovea_x, fovea_y |
| Reporting.FullTable | src/main.py:64-101 | no table exactly when no entry has a summary; otherwise one row per entry |
| Reporting.FullRows | src/main.py:82-99 | one row per entry |
| Reporting.BuildFullRows | src/main.py:82-99 | `rows` ends up holding every entry's extended row, although each `row_out` is appended before it is extended |
| Reporting.FillFullRow | src/main.py:86-99 | an appended row is extended by the summary, bounds and coordinate cells, each missing part padded |
| Reporting.ExportResultsFull | src/main.py:64-102 | returns early exactly when no entry has a summary; otherwise builds the full table |
| Reporting.FullRowWidth | src/main.py:83-99 | every full row has 2 + \|summary header\| + \|bounds header\| + 4 cells, as many as the header, when `to_list` matches `list_names` in length |
| Reporting.FullHeaderColumns | src/main.py:74-101 | column 2 + f * \|keys\| + k is headed `<feature f>_<key k>` and the last four are disc_edge_x, disc_edge_y, fovea_x, fovea_y |
| Reporting.FullRowCells | src/main.py:83-99 | in a successful row, cell 2 + f * \|keys\| + k is feature f's value for key k and the last four are the disc edge's x and y, then the fovea's |
| Reporting.FullColumnsAligned | src/main.py:64-101 | every header of the full table sits over the matching value in every successful row, coordinates included |
| Reporting.AreaHeader | src/main.py:105-123 | `identifier`, `path`, then one column per feature and area statistic: 22 columns |
| Reporting.AreaRow | src/main.py:113-121 | identifier and path, then 20 cells, all empty for a failed row |
| Reporting.ExportResultsArea | src/main.py:104-124 | the area header, and one row per entry: identifier, path, then the summary values or padding |
| Reporting.AreaRowWidth | src/main.py:105-121 | every area row has 2 + 4 * 5 = 22 cells, and a failed row's last 20 are empty |
| Reporting.Laterality | src/main.py:58 | the side is `R` or `L` |
| Reporting.LateralityMirror | src/main.py:58 | mirroring the image swaps the side when the x coordinates differ; a tie is `L` either way |
| Reporting.GetEtdrsMasks | src/main.py:53-61 | the grid uses the image's size and is centred on the fovea; the side is `R` iff disc_x > fovea_x |
| Reporting.ExportFeatures | src/main.py:25-37 | the images saved are those of the export specification, in feature order |
| Reporting.Selected | src/main.py:27-32 | a feature is saved for probability export, when empty masks are not skipped, or when some pixel reaches 0.5 |
| Reporting.Exports | src/main.py:25-37 | at most one image per feature, and exactly one per feature when probabilities are exported or empty masks are kept |
| Reporting.ExportsSound | src/main.py:26-36 | every saved image is of a selected feature, at `<base>/<feature>.png`, holding that feature's probability map or binarisation |
| Reporting.ExportsComplete | src/main.py:26-36 | a feature is saved iff it is selected: probability export, or not (skip_empty and no pixel >= 0.5) |
| Reporting.ExportsOnce | src/main.py:26-36 | no feature is saved twice |
| Reporting.DefaultExport | src/main.py:25-33 | with the defaults, a feature is saved iff some pixel is >= 0.5 |
| Resources.IndexOf | cfi_amd/resources.py:119 | the first `/`, or None exactly when there is none |
| Resources.Split | cfi_amd/resources.py:128 | pathlib's splitting of a name at `/`: at least one piece, none holding `/`, and joining the pieces with `/` gives the name back |
| Resources.Keep | cfi_amd/resources.py:128-136 | only pieces that name components survive |
| Resources.KeepCounts | cfi_amd/resources.py:128-136 | every piece that names a component survives, as often as it occurs, and every other piece is dropped |
| Resources.KeepConcat | cfi_amd/resources.py:128-136 | pieces are kept one by one: the kept pieces of a concatenation are the kept pieces of each part, in order |
| Resources.StripModelsPrefix | cfi_amd/resources.py:118-122 | the name unchanged, or the name without a leading `models/` |
| Resources.StripModelsPrefixExactly | cfi_amd/resources.py:118-122 | a name starting with `models/` loses exactly that prefix, and putting it back gives the name; every other name is returned unchanged |
| Resources.IndexOfIs | cfi_amd/resources.py:119 | the first `/` is at i when s[i] is `/` and none comes before |
| Resources.SlashAfterModels | cfi_amd/resources.py:119-120 | a name whose first `/` follows `models` starts with `models/` |
| Resources.ExtractPathInside | cfi_amd/resources.py:136 | `extractall` places every entry under the target, with no `..` component |
| Resources.StrippedNameCanLeaveTarget | cfi_amd/resources.py:125-128 | the stripping branch joins stripped names unsanitised: `models//x` lands at `/x`, whatever the target |
| Resources.RootedComponents | cfi_amd/resources.py:128 | pathlib's components of `/x` are just `x` |
| Resources.MkdirsWriteValid | cfi_amd/resources.py:130-134 | making directories and writing files keep a real directory tree real |
| Resources.MkdirsExisting | cfi_amd/resources.py:145 | `mkdir(parents=True, exist_ok=True)` on an existing directory changes nothing |
| Resources.AllModelsPrefixed | cfi_amd/resources.py:123 | the stripping branch runs exactly when the archive lists a name and every name starts with `models/` |
| Resources.StripEntry | cfi_amd/resources.py:124-134 | an entry of the stripping branch only adds; an empty stripped name changes nothing; a directory entry writes no file |
| Resources.ExtractEntry | cfi_amd/resources.py:136 | an entry of `extractall` only adds; a directory entry writes no file; every file written lies strictly under the target |
| Resources.UnzipEntries | cfi_amd/resources.py:123-136 | unpacking the entries in order only adds |
| Resources.Unzip | cfi_amd/resources.py:113-136 | `_unzip` only adds, and the target directory exists afterwards |
| Resources.EntryAdds | cfi_amd/resources.py:124-136 | one entry adds the same files and directories whatever was on disk before |
| Resources.UnzipEntriesGrows | cfi_amd/resources.py:123-136 | unpacking entries only adds, and keeps the tree real |
| Resources.UnzipEntriesAdds | cfi_amd/resources.py:123-136 | unpacking adds the same files and directories whatever was there before |
| Resources.FileSystem.constructor | cfi_amd/resources.py:139 | the file system starts as the given tree |
| Resources.FileSystem.MakeDirs | cfi_amd/resources.py:130 | adds the directory and every directory above it |
| Resources.FileSystem.Write | cfi_amd/resources.py:133-134 | adds the file |
| Resources.FileSystem.UnzipArchive | cfi_amd/resources.py:113-136 | makes the target, decides the branch (names non-empty, all starting with `models/`) and unpacks entry by entry: in the stripping branch an empty stripped name is skipped, a directory entry only makes a directory, and a file entry makes its parent then the file; otherwise every sanitised entry is extracted |
| Resources.FileSystem.UnzipMember | cfi_amd/resources.py:124-136 | one member in place: an empty stripped name or an entry at the target itself is skipped, a directory entry makes its directory, a file entry its parent and then the file |
| Resources.FileSystem.FindRepoRoot | cfi_amd/resources.py:13-22 | start first, then each parent towards the root: the first directory holding a sentinel, none closer to start holding one; None iff no ancestor holds one |
| Resources.FileSystem.EnsureModelsDownloaded | cfi_amd/resources.py:139-163 | makes the base, then handles the assets in list order, skipping present targets |
| Resources.GetModelsBaseDir | cfi_amd/resources.py:44-52 | the given directory, else the default one |
| Resources.UnzipAdds | cfi_amd/resources.py:113-136 | unpacking an archive adds what it adds to an empty tree |
| Resources.FetchOne | cfi_amd/resources.py:147-163 | one asset only adds; a present target skips it; an absent plain asset ends up as the file `base/target` |
| Resources.Fetch | cfi_amd/resources.py:146-163 | the assets handled in order only add |
| Resources.EnsureDownloaded | cfi_amd/resources.py:139-163 | `ensure_models_downloaded` only adds, and the base directory exists afterwards |
| Resources.FetchGrows | cfi_amd/resources.py:146-163 | fetching only adds, keeps a real tree real, and changes nothing when every target is present |
| Resources.FetchOnePlaces | cfi_amd/resources.py:150-163 | after one asset is handled its target exists, provided an archive places it |
| Resources.FetchPlacesTargets | cfi_amd/resources.py:146-163 | afterwards every asset's target exists: files at `base/target`, archives unpacked into `base` itself |
| Resources.EnsureDownloadedIdempotent | cfi_amd/resources.py:139-163 | afterwards every target exists and nothing has gone, and a second call changes nothing |
| Resources.EnsureDownloadedSkipsPresent | cfi_amd/resources.py:139-163 | with every target present only the base directory is made: nothing is downloaded |

## Left out

- Numerics. Convolutions, normalisation, activations, the sigmoid and torch
  tensor and device handling are inside the network parameters. Values are
  Dafny reals: the `float32` casts and numpy's float rounding are not modelled.
- `log` and `pow` are parameters. Only `ln(0.5) != 0` is assumed, and
  `pow(x, 1) == x` where the 0.5-threshold lemmas need it. The range lemmas
  assume the real facts they need (`Processor.UnitMath`): log is negative at
  0.5 and not positive on (0, 1], and a non-negative power keeps [0, 1].
- Processor.ExpectedMapWithin: assumes that the networks' outputs lie in
  [0, 1] and that the inverse warp keeps a map in [0, 1]
  (`Processor.ProbabilityPreserving`). The sigmoid and the interpolation
  that give these are not part of this model.
- Processor.RadiusFractionHasNoEffect: assumes that the cropped images do
  not depend on the cropped radius, as they are plain fields of the cropped
  bounds here. If the fundus library derived them from the radius when they
  are read, `radius_fraction` could change the output.
- `get_cfi_bounds`, `bounds.crop`, `warp_inverse`, `apply_inverse` and the
  contrast-enhanced images are parameters. They are not part of this model.
- `get_resolution` (a floating-point `sqrt`) is a parameter of
  `Reporting.GetEtdrsMasks`. `ETDRS_masks`, `Report`, `process_row`,
  `open_image`, `to_uint8`, the CSV and PNG writing and the console output are
  not part of this model.
- Checkpoint loading, `torch.jit.load`, `.to(device)`, `.eval()`,
  `get_processors` and `initialize_weights` (never called by the core) are
  left out. `load_models` is modelled as the list of checkpoints it loads.
- `Processor.ThresholdsGlobal` is recorded, but the source never reads it.
- `default_models_dir` depends on the platform and the environment. It is a
  parameter of `Resources.GetModelsBaseDir`. The docstring of
  `get_models_base_dir` (cfi_amd/resources.py:45-50) also promises a fallback
  to a repository checkout and a clear error, but the code at line 51 does
  neither: it returns the given directory, else the default one. The model
  follows the code.
- HTTP downloads, temporary files and directories, and the byte contents of
  files are left out. A download adds its file. An archive is given by the
  names it lists.
- Resources.FileSystem: conflicts between a file and a directory of the same
  path, permissions and I/O errors are not modelled. `Resources.ExtractEntry`
  skips an entry whose sanitised path is the target itself. For a file entry,
  zipfile and `open(dest, "wb")` would raise there instead.
- Resources.ExtractPath: zipfile's sanitising is modelled as dropping empty,
  `.` and `..` components. Drive letters and backslashes are not modelled.
- Resources.FileSystem.FindRepoRoot: start is taken as an absolute path. A
  relative start's parents, which stop at `.`, are not modelled. The sentinels
  are tried in an arbitrary order, as iteration over a Python set is.
- Resources.EnsureDownloadedIdempotent: this assumes that each archive places
  its target directory under the base (`ArchivesPlaceTargets`), as the
  published archives do. Archive contents are not part of this model.
- Processor.Process: requires the mode to be `th_0.5` or `th_optimal`, as the
  constructor documents. With any other mode `combine_ensemble` returns None
  and the opaque `warp_inverse` receives None. That path is covered only by
  `Processor.CombineEnsemble`.
- Processor.Process, Processor.ExpectedMap: requires that the collaborators
  agree with the shapes the code relies on (`Processor.Agree`): the mask
  covers the image, the crop is 1024 x 1024 with three channels per image,
  and each network yields its channels at crop size. Other collaborators make
  numpy raise.
- Landmarks.Process: requires non-empty ensembles of equally shaped heatmaps
  (`Landmarks.Agree`). An empty heatmap, where numpy's `argmax` raises, is
  modelled as None.
- Reporting.ExportResultsFull, Reporting.FullRowWidth: require every entry to
  have all three parts or none, and every summary to cover the first
  successful entry's keys (`Reporting.FullReady`). Otherwise the source
  raises a KeyError. The row width additionally assumes that `to_list`
  matches `list_names` in length.
- Reporting.ExportResultsArea, Reporting.AreaRowWidth: require every summary
  to hold the five area statistics for every feature (`Reporting.AreaReady`).
  Otherwise the source raises a KeyError (`src/main.py:119-121`). That error
  path is not modelled.
- UNetWiring.Forward: states the result only for consistently wired networks.
  For those, channel counts are modelled instead of tensors, and a layer
  given the wrong channel count yields None where torch raises.
