/** The batch driver and its tables (src/main.py): one result per input row
    whatever happens to the others, the wide `results_full.csv` and the
    fixed-width `results_area.csv` tables, the laterality rule of the ETDRS
    grid and the choice of feature images to export. Processing one row,
    the per-image report and every write to disk are left to collaborators;
    the tables and the exported images are returned as values. */
module Reporting {
  import opened Wrappers
  import opened Raster
  import opened Fundus

  /** `feature_names`, in the order of every table and export. */
  const FeatureNames: seq<string> := ["drusen", "RPD", "hyperpigmentation", "rpe_degeneration"]

  /** The per-feature statistics `export_results_area` reads. */
  const AreaKeys: seq<string> := ["total_area", "grid_area", "outer_area", "inner_area", "center_area"]

  /** `coords_header`. */
  const CoordsHeader: seq<string> := ["disc_edge_x", "disc_edge_y", "fovea_x", "fovea_y"]

  /** One row of the input CSV. */
  datatype Row = Row(identifier: string, path: string)

  /** A feature's statistics dictionary: its keys in insertion order and its
      values. */
  datatype Stats = Stats(keys: seq<string>, values: map<string, real>)

  /** `report.summaries`: one statistics dictionary per feature. */
  type Summary = map<string, Stats>

  /** A landmark dictionary: `disc_edge` and `fovea` points. */
  type Coords = map<string, Point>

  /** One element of `results`: the row and, when processing succeeded, its
      summary, bounds and landmark coordinates. */
  datatype Entry = Entry(row: Row, summary: Option<Summary>, bounds: Option<Bounds>, coords: Option<Coords>)

  /** A CSV cell: empty (`None`), text or a number. */
  datatype Cell = Null | Text(s: string) | Number(v: real)

  /** A table as handed to `pd.DataFrame(rows, columns=...)`. */
  datatype Table = Table(header: seq<string>, rows: seq<seq<Cell>>)

  // ---------------------------------------------------------------- main

  /** The entry `main` appends for a row, given what `process_row` returned:
      its report summary, bounds and coordinates, or None when it raised. */
  function EntryFor(row: Row, outcome: Option<(Summary, Bounds, Coords)>): (e: Entry)
    ensures e.row == row
    ensures outcome.None? <==> e.summary.None?
    ensures e.summary.Some? <==> e.bounds.Some? && e.coords.Some?
    ensures outcome.Some? ==> e.summary == Some(outcome.value.0) && e.bounds == Some(outcome.value.1) && e.coords == Some(outcome.value.2)
  {
    match outcome
    case None => Entry(row, None, None, None)
    case Some(o) => Entry(row, Some(o.0), Some(o.1), Some(o.2))
  }

  /** `results` after the loop of `main` over the rows. */
  function Batch(rows: seq<Row>, processRow: Row -> Option<(Summary, Bounds, Coords)>): (r: seq<Entry>)
    ensures |r| == |rows|
  {
    seq(|rows|, i requires 0 <= i < |rows| => EntryFor(rows[i], processRow(rows[i])))
  }

  /** The loop of `main(csv_path, output_folder, args)`: every row is
      processed in turn and contributes exactly one entry, a failing row the
      entry (row, None, None, None), and the loop goes on. */
  method RunBatch(rows: seq<Row>, processRow: Row -> Option<(Summary, Bounds, Coords)>) returns (results: seq<Entry>)
    ensures |results| == |rows|
    ensures forall i :: 0 <= i < |rows| ==> results[i].row == rows[i]
    ensures forall i :: 0 <= i < |rows| ==> processRow(rows[i]).None? ==>
      results[i] == Entry(rows[i], None, None, None)
    ensures results == Batch(rows, processRow)
  {
    results := [];
    for i := 0 to |rows|
      invariant results == Batch(rows[..i], processRow)
    {
      var outcome := processRow(rows[i]);
      if outcome.None? {
        results := results + [Entry(rows[i], None, None, None)];
      } else {
        results := results + [Entry(rows[i], Some(outcome.value.0), Some(outcome.value.1), Some(outcome.value.2))];
      }
      assert rows[..i + 1] == rows[..i] + [rows[i]];
    }
    assert rows[..|rows|] == rows;
  }

  /** Failures are isolated: the results of a batch are the results of its
      parts, each row's entry depending on that row alone. */
  lemma BatchSplits(rows1: seq<Row>, rows2: seq<Row>, processRow: Row -> Option<(Summary, Bounds, Coords)>)
    ensures Batch(rows1 + rows2, processRow) == Batch(rows1, processRow) + Batch(rows2, processRow)
  {
    var whole := Batch(rows1 + rows2, processRow);
    var parts := Batch(rows1, processRow) + Batch(rows2, processRow);
    forall i | 0 <= i < |whole|
      ensures whole[i] == parts[i]
    {
      if i >= |rows1| {
        assert (rows1 + rows2)[i] == rows2[i - |rows1|];
      }
    }
  }

  // ---------------------------------------------------------------- the rows, extended in place

  /** A row under construction (`row_out`): `rows` holds the list itself, so
      extending it after it was appended changes the row in `rows`. */
  class RowOut {
    var cells: seq<Cell>

    constructor (init: seq<Cell>)
      ensures cells == init
    {
      cells := init;
    }

    /** `row_out += more`. */
    method Extend(more: seq<Cell>)
      modifies this
      ensures cells == old(cells) + more
    {
      cells := cells + more;
    }
  }

  /** n empty cells (`[None] * n`). */
  function Nulls(n: nat): (r: seq<Cell>)
    ensures |r| == n && forall i :: 0 <= i < n ==> r[i] == Null
  {
    seq(n, _ => Null)
  }

  /** The rows' cells, in the order of `rows`. */
  method CellsOf(rows: seq<RowOut>) returns (cells: seq<seq<Cell>>)
    ensures |cells| == |rows| && forall k :: 0 <= k < |rows| ==> cells[k] == rows[k].cells
  {
    cells := [];
    for k := 0 to |rows|
      invariant |cells| == k && forall k' :: 0 <= k' < k ==> cells[k'] == rows[k'].cells
    {
      cells := cells + [rows[k].cells];
    }
  }

  // ---------------------------------------------------------------- summary columns

  /** `f'{feature_name}_{k}'` for every feature, then every key: feature-major. */
  function SummaryHeader(keys: seq<string>): (r: seq<string>)
    ensures |r| == |FeatureNames| * |keys|
  {
    var blocks := HeaderBlocks(keys);
    FlattenLength(blocks, |FeatureNames|, |keys|);
    Flatten(blocks)
  }

  /** The header names of each feature, one block per feature. */
  function HeaderBlocks(keys: seq<string>): (blocks: seq<seq<string>>)
    ensures Shaped(blocks, |FeatureNames|, |keys|)
  {
    seq(|FeatureNames|, f requires 0 <= f < |FeatureNames| =>
      seq(|keys|, k requires 0 <= k < |keys| => FeatureNames[f] + "_" + keys[k]))
  }

  /** Summary column f * |keys| + k is headed `<feature f>_<key k>`: all of a
      feature's keys come before the next feature's. */
  lemma SummaryHeaderIndex(keys: seq<string>, f: nat, k: nat)
    requires f < |FeatureNames| && k < |keys|
    ensures f * |keys| + k < |SummaryHeader(keys)|
    ensures SummaryHeader(keys)[f * |keys| + k] == FeatureNames[f] + "_" + keys[k]
  {
    FlattenIndex(HeaderBlocks(keys), |FeatureNames|, |keys|, f, k);
  }

  /** The summary has every feature, each with a value for every key. */
  predicate Covers(summary: Summary, keys: seq<string>) {
    forall name :: name in FeatureNames ==>
      name in summary && forall key :: key in keys ==> key in summary[name].values
  }

  /** `summary[feature_name][k]` for every feature, then every key. */
  function SummaryCells(summary: Summary, keys: seq<string>): (r: seq<Cell>)
    requires Covers(summary, keys)
    ensures |r| == |FeatureNames| * |keys|
  {
    var blocks := CellBlocks(summary, keys);
    FlattenLength(blocks, |FeatureNames|, |keys|);
    Flatten(blocks)
  }

  /** The summary values of each feature, one block per feature. */
  function CellBlocks(summary: Summary, keys: seq<string>): (blocks: seq<seq<Cell>>)
    requires Covers(summary, keys)
    ensures Shaped(blocks, |FeatureNames|, |keys|)
  {
    seq(|FeatureNames|, f requires 0 <= f < |FeatureNames| =>
      seq(|keys|, k requires 0 <= k < |keys| => Number(summary[FeatureNames[f]].values[keys[k]])))
  }

  /** Summary cell f * |keys| + k holds feature f's value for key k. */
  lemma SummaryCellsIndex(summary: Summary, keys: seq<string>, f: nat, k: nat)
    requires Covers(summary, keys) && f < |FeatureNames| && k < |keys|
    ensures f * |keys| + k < |SummaryCells(summary, keys)|
    ensures SummaryCells(summary, keys)[f * |keys| + k] == Number(summary[FeatureNames[f]].values[keys[k]])
  {
    FlattenIndex(CellBlocks(summary, keys), |FeatureNames|, |keys|, f, k);
  }

  /** The cells of a summary, or as many empty cells as the header has
      columns when the row failed. */
  function SummaryPart(summary: Option<Summary>, keys: seq<string>): (r: seq<Cell>)
    requires summary.Some? ==> Covers(summary.value, keys)
    ensures |r| == |FeatureNames| * |keys|
  {
    if summary.None? then Nulls(|FeatureNames| * |keys|) else SummaryCells(summary.value, keys)
  }

  // ---------------------------------------------------------------- export_results_full

  /** The index of the first entry with a summary (the `next(...)` of
      `export_results_full`), or None when there is none. */
  function FirstSuccess(results: seq<Entry>): (r: Option<nat>)
    ensures r.None? <==> forall k :: 0 <= k < |results| ==> results[k].summary.None?
    ensures r.Some? ==> (r.value < |results| && results[r.value].summary.Some?
      && forall k :: 0 <= k < r.value ==> results[k].summary.None?)
  {
    if results == [] then None
    else if results[0].summary.Some? then Some(0)
    else match FirstSuccess(results[1..])
      case None => None
      case Some(k) => Some(k + 1)
  }

  /** Entries as `main` builds them: all three parts or none, landmark
      dictionaries with both landmarks, summaries with every feature. */
  predicate Produced(e: Entry) {
    && (e.summary.Some? <==> e.bounds.Some?)
    && (e.summary.Some? <==> e.coords.Some?)
    && (e.coords.Some? ==> "disc_edge" in e.coords.value && "fovea" in e.coords.value)
    && (e.summary.Some? ==> FeatureNames[0] in e.summary.value)
  }

  /** The keys of the full table's summary columns: those of the first
      feature of the first successful entry. */
  function FullKeys(results: seq<Entry>, first: nat): seq<string>
    requires first < |results| && Produced(results[first]) && results[first].summary.Some?
  {
    results[first].summary.value[FeatureNames[0]].keys
  }

  /** Every entry was produced by `main` and every summary holds a value for
      every feature and every key in keys. */
  predicate RowsReady(results: seq<Entry>, keys: seq<string>) {
    forall k :: 0 <= k < |results| ==>
      Produced(results[k]) && (results[k].summary.Some? ==> Covers(results[k].summary.value, keys))
  }

  /** What `export_results_full` needs to build its rows without raising:
      every entry produced by `main`, and every summary holding a value for
      every feature and every key of the first successful one. */
  predicate FullReady(results: seq<Entry>) {
    && (forall k :: 0 <= k < |results| ==> Produced(results[k]))
    && (FirstSuccess(results).Some? ==> RowsReady(results, FullKeys(results, FirstSuccess(results).value)))
  }

  /** The four coordinate cells: disc edge x and y, then fovea x and y. */
  function CoordCells(coords: Coords): (r: seq<Cell>)
    requires "disc_edge" in coords && "fovea" in coords
    ensures |r| == 4
  {
    [Number(coords["disc_edge"].x), Number(coords["disc_edge"].y), Number(coords["fovea"].x), Number(coords["fovea"].y)]
  }

  /** `row_out` of the full table for one entry, with keys and the number
      of bounds columns taken from the first successful entry. */
  function FullRow(e: Entry, keys: seq<string>, boundsColumns: nat): (r: seq<Cell>)
    requires Produced(e) && (e.summary.Some? ==> Covers(e.summary.value, keys))
    ensures |r| >= 2 && r[0] == Text(e.row.identifier) && r[1] == Text(e.row.path)
    ensures e.summary.None? ==> |r| == 2 + |FeatureNames| * |keys| + boundsColumns + |CoordsHeader|
  {
    [Text(e.row.identifier), Text(e.row.path)] + FullRest(e, keys, boundsColumns)
  }

  /** The cells of a full row after identifier and path: summary, bounds,
      coordinates. */
  function FullRest(e: Entry, keys: seq<string>, boundsColumns: nat): (r: seq<Cell>)
    requires Produced(e) && (e.summary.Some? ==> Covers(e.summary.value, keys))
    ensures e.summary.None? ==> |r| == |FeatureNames| * |keys| + boundsColumns + |CoordsHeader|
    ensures e.summary.None? ==> forall k :: 0 <= k < |r| ==> r[k] == Null
    ensures e.summary.Some? ==> |r| == |FeatureNames| * |keys| + |e.bounds.value.listValues| + |CoordsHeader|
  {
    SummaryPart(e.summary, keys)
      + (if e.bounds.None? then Nulls(boundsColumns) else seq(|e.bounds.value.listValues|, i requires 0 <= i < |e.bounds.value.listValues| => Number(e.bounds.value.listValues[i])))
      + (if e.coords.None? then Nulls(|CoordsHeader|) else CoordCells(e.coords.value))
  }

  /** The table `export_results_full` writes, or None when no entry has a
      summary (it returns early). */
  function FullTable(results: seq<Entry>): (t: Option<Table>)
    requires FullReady(results)
    ensures t.None? <==> forall k :: 0 <= k < |results| ==> results[k].summary.None?
    ensures t.Some? ==> |t.value.rows| == |results|
  {
    match FirstSuccess(results)
    case None => None
    case Some(first) =>
      var keys := FullKeys(results, first);
      var boundsHeader := results[first].bounds.value.listNames;
      Some(Table(FullHeader(keys, boundsHeader), FullRows(results, keys, |boundsHeader|)))
  }

  /** The columns of the full table. */
  function FullHeader(keys: seq<string>, boundsHeader: seq<string>): (r: seq<string>)
    ensures |r| == 2 + |FeatureNames| * |keys| + |boundsHeader| + |CoordsHeader|
    ensures r[..2] == ["identifier", "path"] && r[|r| - |CoordsHeader|..] == CoordsHeader
  {
    ["identifier", "path"] + SummaryHeader(keys) + boundsHeader + CoordsHeader
  }

  /** The rows of the full table. */
  function FullRows(results: seq<Entry>, keys: seq<string>, boundsColumns: nat): (rows: seq<seq<Cell>>)
    requires RowsReady(results, keys)
    ensures |rows| == |results|
  {
    seq(|results|, k requires 0 <= k < |results| => FullRow(results[k], keys, boundsColumns))
  }

  /** The loop of `export_results_full`: each `row_out` is appended to
      `rows` first and extended afterwards, and `rows` ends up holding the
      extended rows. */
  method BuildFullRows(results: seq<Entry>, keys: seq<string>, boundsColumns: nat) returns (cells: seq<seq<Cell>>)
    requires RowsReady(results, keys)
    ensures cells == FullRows(results, keys, boundsColumns)
  {
    var rows: seq<RowOut> := [];
    for i := 0 to |results|
      invariant |rows| == i
      invariant forall k :: 0 <= k < i ==> rows[k].cells == FullRow(results[k], keys, boundsColumns)
    {
      var e := results[i];
      var rowOut := new RowOut([Text(e.row.identifier), Text(e.row.path)]);
      rows := rows + [rowOut];
      FillFullRow(rowOut, e, keys, boundsColumns);
    }
    cells := CellsOf(rows);
  }

  /** Extends an appended `row_out` with an entry's summary, bounds and
      coordinate cells, padding each missing part. */
  method FillFullRow(rowOut: RowOut, e: Entry, keys: seq<string>, boundsColumns: nat)
    requires Produced(e) && (e.summary.Some? ==> Covers(e.summary.value, keys))
    modifies rowOut
    ensures rowOut.cells == old(rowOut.cells) + FullRest(e, keys, boundsColumns)
  {
    if e.summary.None? {
      rowOut.Extend(Nulls(|FeatureNames| * |keys|));
    } else {
      rowOut.Extend(SummaryCells(e.summary.value, keys));
    }
    if e.bounds.None? {
      rowOut.Extend(Nulls(boundsColumns));
    } else {
      rowOut.Extend(seq(|e.bounds.value.listValues|, j requires 0 <= j < |e.bounds.value.listValues| => Number(e.bounds.value.listValues[j])));
    }
    if e.coords.None? {
      rowOut.Extend(Nulls(|CoordsHeader|));
    } else {
      rowOut.Extend(CoordCells(e.coords.value));
    }
  }

  /** `export_results_full(output_folder, results)`; the table is returned
      instead of written. */
  method ExportResultsFull(results: seq<Entry>) returns (t: Option<Table>)
    requires FullReady(results)
    ensures t == FullTable(results)
  {
    var first := FirstSuccess(results);
    if first.None? {
      return None;
    }
    var keys := FullKeys(results, first.value);
    var boundsHeader := results[first.value].bounds.value.listNames;
    var rows := BuildFullRows(results, keys, |boundsHeader|);
    t := Some(Table(FullHeader(keys, boundsHeader), rows));
  }

  /** Every row of the full table is as wide as its header,
      2 + |summary header| + |bounds header| + 4, provided `to_list`
      matches `list_names` in length; failed parts are padded with exactly
      that many empty cells. */
  lemma FullRowWidth(results: seq<Entry>, k: nat)
    requires FullReady(results) && FullTable(results).Some? && k < |results|
    requires forall j :: 0 <= j < |results| && results[j].bounds.Some? ==>
      |results[j].bounds.value.listValues| == |results[FirstSuccess(results).value].bounds.value.listNames|
    ensures var t := FullTable(results).value;
      var first := FirstSuccess(results).value;
      && |t.header| == 2 + |FeatureNames| * |FullKeys(results, first)| + |results[first].bounds.value.listNames| + 4
      && |t.rows[k]| == |t.header|
  {
  }

  /** Full-table column 2 + f * |keys| + k is headed `<feature f>_<key k>`
      and the last four columns are the coordinate columns. */
  lemma FullHeaderColumns(keys: seq<string>, boundsHeader: seq<string>, f: nat, key: nat)
    requires f < |FeatureNames| && key < |keys|
    ensures var col := 2 + f * |keys| + key;
      var header := FullHeader(keys, boundsHeader);
      && col < |header| && header[col] == FeatureNames[f] + "_" + keys[key]
      && header[|header| - 4..] == CoordsHeader
  {
    SummaryHeaderIndex(keys, f, key);
  }

  /** In a successful entry's full row, cell 2 + f * |keys| + k holds feature
      f's value for key k, and the last four cells hold the disc edge's x and
      y, then the fovea's. */
  lemma FullRowCells(e: Entry, keys: seq<string>, boundsColumns: nat, f: nat, key: nat)
    requires Produced(e) && e.summary.Some? && Covers(e.summary.value, keys)
    requires f < |FeatureNames| && key < |keys|
    ensures var col := 2 + f * |keys| + key;
      var row := FullRow(e, keys, boundsColumns);
      && col < |row| && row[col] == Number(e.summary.value[FeatureNames[f]].values[keys[key]])
      && row[|row| - 4..] == [Number(e.coords.value["disc_edge"].x), Number(e.coords.value["disc_edge"].y),
                             Number(e.coords.value["fovea"].x), Number(e.coords.value["fovea"].y)]
  {
    SummaryCellsIndex(e.summary.value, keys, f, key);
    var cells := SummaryCells(e.summary.value, keys);
    var bounds := seq(|e.bounds.value.listValues|, i requires 0 <= i < |e.bounds.value.listValues| => Number(e.bounds.value.listValues[i]));
    assert FullRow(e, keys, boundsColumns) == [Text(e.row.identifier), Text(e.row.path)] + cells + (bounds + CoordCells(e.coords.value));
  }

  /** In the full table the column headed `<feature>_<key>` holds, in every
      successful row, that feature's value for that key, and the columns
      headed disc_edge_x, disc_edge_y, fovea_x, fovea_y hold those
      coordinates. */
  lemma FullColumnsAligned(results: seq<Entry>, row: nat, f: nat, key: nat)
    requires FullReady(results) && FullTable(results).Some? && row < |results|
    requires results[row].summary.Some?
    requires f < |FeatureNames| && key < |FullKeys(results, FirstSuccess(results).value)|
    ensures var t := FullTable(results).value;
      var keys := FullKeys(results, FirstSuccess(results).value);
      var e := results[row];
      var col := 2 + f * |keys| + key;
      && col < |t.header| && col < |t.rows[row]|
      && t.header[col] == FeatureNames[f] + "_" + keys[key]
      && t.rows[row][col] == Number(e.summary.value[FeatureNames[f]].values[keys[key]])
      && t.header[|t.header| - 4..] == CoordsHeader
      && t.rows[row][|t.rows[row]| - 4..] == [Number(e.coords.value["disc_edge"].x), Number(e.coords.value["disc_edge"].y),
                                             Number(e.coords.value["fovea"].x), Number(e.coords.value["fovea"].y)]
  {
    var first := FirstSuccess(results).value;
    var keys := FullKeys(results, first);
    var boundsHeader := results[first].bounds.value.listNames;
    FullHeaderColumns(keys, boundsHeader, f, key);
    FullRowCells(results[row], keys, |boundsHeader|, f, key);
  }

  // ---------------------------------------------------------------- export_results_area

  /** The header of the area table: identifier, path and `<feature>_<key>`
      for the five area statistics. */
  function AreaHeader(): (r: seq<string>)
    ensures |r| == 2 + |FeatureNames| * |AreaKeys|
    ensures r[..2] == ["identifier", "path"]
  {
    ["identifier", "path"] + SummaryHeader(AreaKeys)
  }

  /** `row_out` of the area table for one entry. */
  function AreaRow(e: Entry): (r: seq<Cell>)
    requires e.summary.Some? ==> Covers(e.summary.value, AreaKeys)
    ensures |r| == 2 + |FeatureNames| * |AreaKeys|
    ensures r[0] == Text(e.row.identifier) && r[1] == Text(e.row.path)
    ensures e.summary.None? ==> forall k :: 2 <= k < |r| ==> r[k] == Null
  {
    [Text(e.row.identifier), Text(e.row.path)] + SummaryPart(e.summary, AreaKeys)
  }

  /** Every summary has every feature's area statistics. */
  predicate AreaReady(results: seq<Entry>) {
    forall k :: 0 <= k < |results| && results[k].summary.Some? ==> Covers(results[k].summary.value, AreaKeys)
  }

  /** `export_results_area(output_folder, results)`; the table is returned
      instead of written. */
  method ExportResultsArea(results: seq<Entry>) returns (t: Table)
    requires AreaReady(results)
    ensures t.header == AreaHeader()
    ensures |t.rows| == |results| && forall k :: 0 <= k < |results| ==> t.rows[k] == AreaRow(results[k])
  {
    var summaryHeader := SummaryHeader(AreaKeys);
    var rows: seq<RowOut> := [];
    for i := 0 to |results|
      invariant |rows| == i
      invariant forall k :: 0 <= k < i ==> rows[k].cells == AreaRow(results[k])
    {
      var e := results[i];
      var rowOut := new RowOut([Text(e.row.identifier), Text(e.row.path)]);
      rows := rows + [rowOut];
      if e.summary.None? {
        rowOut.Extend(Nulls(|summaryHeader|));
      } else {
        rowOut.Extend(SummaryCells(e.summary.value, AreaKeys));
      }
    }
    var cells := CellsOf(rows);
    t := Table(["identifier", "path"] + summaryHeader, cells);
  }

  /** Every area row, failed or not, has 2 + 4 * 5 = 22 cells, as many as
      the header; a failed row is its identifier, its path and 20 empty
      cells. */
  lemma AreaRowWidth(e: Entry)
    requires e.summary.Some? ==> Covers(e.summary.value, AreaKeys)
    ensures |AreaRow(e)| == 22 && |AreaHeader()| == 22
    ensures e.summary.None? ==> AreaRow(e)[2..] == Nulls(20)
  {
  }

  // ---------------------------------------------------------------- get_etdrs_masks

  /** The eye's side as `get_etdrs_masks` decides it: right when the disc
      edge lies right of the fovea, otherwise (ties included) left. */
  function Laterality(disc: Point, fovea: Point): (side: char)
    ensures side == 'R' || side == 'L'
  {
    if disc.x > fovea.x then 'R' else 'L'
  }

  /** Mirroring the image left to right (x becomes c - x) swaps the side
      whenever the disc edge and fovea have different x; a tie is left
      either way. */
  lemma LateralityMirror(disc: Point, fovea: Point, c: real)
    ensures var side := Laterality(Point(c - disc.x, disc.y), Point(c - fovea.x, fovea.y));
      && (disc.x != fovea.x ==> side != Laterality(disc, fovea))
      && (disc.x == fovea.x ==> side == 'L' && Laterality(disc, fovea) == 'L')
  {
  }

  /** The arguments `get_etdrs_masks` passes to `ETDRS_masks`. */
  datatype EtdrsArgs = EtdrsArgs(h: nat, w: nat, foveaX: real, foveaY: real, resolution: real, laterality: char)

  /** `get_etdrs_masks(bounds, coords)`, with `get_resolution` a parameter:
      the grid is centred on the fovea, over the image's size, with the side
      the landmarks give. */
  function GetEtdrsMasks(bounds: Bounds, coords: Coords, resolution: (real, real, real, real) -> real): (a: EtdrsArgs)
    requires "disc_edge" in coords && "fovea" in coords
    ensures a.h == bounds.h && a.w == bounds.w
    ensures a.foveaX == coords["fovea"].x && a.foveaY == coords["fovea"].y
    ensures a.laterality == 'R' <==> coords["disc_edge"].x > coords["fovea"].x
  {
    var fovea := coords["fovea"];
    var disc := coords["disc_edge"];
    EtdrsArgs(bounds.h, bounds.w, fovea.x, fovea.y, resolution(fovea.x, fovea.y, disc.x, disc.y), Laterality(disc, fovea))
  }

  // ---------------------------------------------------------------- export_features

  /** An image `export_features` saves: the probability map itself, or its
      binarisation. */
  datatype Png = Probability(map_: Grid) | Binary(mask: seq<seq<bool>>)

  /** One saved image: the feature, the file it goes to, its content. */
  datatype Export = Export(feature: string, path: string, image: Png)

  /** `f'{base_path}/{feature_name}.png'`. */
  function PngPath(base: string, feature: string): string {
    base + "/" + feature + ".png"
  }

  /** The result maps `export_features` reads: one h x w map per feature. */
  predicate HasFeatures(result: map<string, Grid>, h: nat, w: nat) {
    forall f :: 0 <= f < |FeatureNames| ==> FeatureNames[f] in result && Shaped(result[FeatureNames[f]], h, w)
  }

  /** Whether a feature's image is saved: always for probability export;
      for binary export unless empty masks are skipped and no pixel reaches
      0.5. */
  predicate Selected(result: map<string, Grid>, h: nat, w: nat, feature: string, exportProbability: bool, skipEmpty: bool)
    requires feature in result && Shaped(result[feature], h, w)
    ensures Selected(result, h, w, feature, exportProbability, skipEmpty) <==>
      exportProbability || !skipEmpty || exists i, j :: 0 <= i < h && 0 <= j < w && result[feature][i][j] >= 0.5
  {
    exportProbability || !skipEmpty || AnySet(AtLeast(result[feature], 0.5, h, w), h, w)
  }

  /** The image saved for a selected feature. */
  function ImageOf(result: map<string, Grid>, h: nat, w: nat, feature: string, exportProbability: bool): Png
    requires feature in result && Shaped(result[feature], h, w)
  {
    if exportProbability then Probability(result[feature]) else Binary(AtLeast(result[feature], 0.5, h, w))
  }

  /** The images saved for the features names, in order. */
  function Exports(result: map<string, Grid>, h: nat, w: nat, base: string, names: seq<string>, exportProbability: bool, skipEmpty: bool): (r: seq<Export>)
    requires forall f :: 0 <= f < |names| ==> names[f] in result && Shaped(result[names[f]], h, w)
    ensures |r| <= |names|
    ensures exportProbability || !skipEmpty ==> |r| == |names|
  {
    if names == [] then []
    else
      var last := names[|names| - 1];
      Exports(result, h, w, base, names[..|names| - 1], exportProbability, skipEmpty)
        + if Selected(result, h, w, last, exportProbability, skipEmpty)
          then [Export(last, PngPath(base, last), ImageOf(result, h, w, last, exportProbability))]
          else []
  }

  /** `export_features(result, base_path, export_probability, skip_empty)`;
      the saved images are returned in the order they are saved. */
  method ExportFeatures(result: map<string, Grid>, h: nat, w: nat, base: string, exportProbability: bool, skipEmpty: bool)
    returns (saved: seq<Export>)
    requires HasFeatures(result, h, w)
    ensures saved == Exports(result, h, w, base, FeatureNames, exportProbability, skipEmpty)
  {
    saved := [];
    for n := 0 to |FeatureNames|
      invariant saved == Exports(result, h, w, base, FeatureNames[..n], exportProbability, skipEmpty)
    {
      var feature := FeatureNames[n];
      assert FeatureNames[..n + 1][..n] == FeatureNames[..n];
      var img: Png;
      if exportProbability {
        img := Probability(result[feature]);
      } else {
        var binary := AtLeast(result[feature], 0.5, h, w);
        if skipEmpty && !AnySet(binary, h, w) {
          continue;
        }
        img := Binary(binary);
      }
      saved := saved + [Export(feature, PngPath(base, feature), img)];
    }
    assert FeatureNames[..|FeatureNames|] == FeatureNames;
  }

  /** Every saved image belongs to a selected feature of names, sits at
      `<base>/<feature>.png` and holds that feature's image. */
  lemma {:induction false} ExportsSound(result: map<string, Grid>, h: nat, w: nat, base: string, names: seq<string>, exportProbability: bool, skipEmpty: bool)
    requires forall f :: 0 <= f < |names| ==> names[f] in result && Shaped(result[names[f]], h, w)
    ensures forall e :: e in Exports(result, h, w, base, names, exportProbability, skipEmpty) ==>
      (e.feature in names && e.path == PngPath(base, e.feature)
        && e.image == ImageOf(result, h, w, e.feature, exportProbability)
        && Selected(result, h, w, e.feature, exportProbability, skipEmpty))
  {
    if names != [] {
      var init := names[..|names| - 1];
      ExportsSound(result, h, w, base, init, exportProbability, skipEmpty);
      assert forall x :: x in init ==> x in names;
    }
  }

  /** A feature of names is saved if and only if it is selected. */
  lemma {:induction false} ExportsComplete(result: map<string, Grid>, h: nat, w: nat, base: string, names: seq<string>, exportProbability: bool, skipEmpty: bool)
    requires forall f :: 0 <= f < |names| ==> names[f] in result && Shaped(result[names[f]], h, w)
    ensures forall f :: 0 <= f < |names| ==>
      (Selected(result, h, w, names[f], exportProbability, skipEmpty) <==>
        exists e :: e in Exports(result, h, w, base, names, exportProbability, skipEmpty) && e.feature == names[f])
  {
    if names != [] {
      var init := names[..|names| - 1];
      var last := names[|names| - 1];
      ExportsComplete(result, h, w, base, init, exportProbability, skipEmpty);
      ExportsSound(result, h, w, base, names, exportProbability, skipEmpty);
      var before := Exports(result, h, w, base, init, exportProbability, skipEmpty);
      var saved := Exports(result, h, w, base, names, exportProbability, skipEmpty);
      var added := if Selected(result, h, w, last, exportProbability, skipEmpty)
        then [Export(last, PngPath(base, last), ImageOf(result, h, w, last, exportProbability))] else [];
      assert saved == before + added;
      forall f | 0 <= f < |names|
        ensures Selected(result, h, w, names[f], exportProbability, skipEmpty) <==>
          exists e :: e in saved && e.feature == names[f]
      {
        if f < |names| - 1 {
          assert names[f] == init[f];
          if Selected(result, h, w, names[f], exportProbability, skipEmpty) {
            var e :| e in before && e.feature == names[f];
            assert e in saved;
          }
        } else if added != [] {
          assert saved[|saved| - 1] in saved;
        }
      }
    }
  }

  /** No two exports are of the same feature. */
  predicate DistinctFeatures(saved: seq<Export>) {
    forall a, b :: 0 <= a < b < |saved| ==> saved[a].feature != saved[b].feature
  }

  /** When names has no repeats, no feature is saved twice. */
  lemma {:induction false} ExportsOnce(result: map<string, Grid>, h: nat, w: nat, base: string, names: seq<string>, exportProbability: bool, skipEmpty: bool)
    requires forall f :: 0 <= f < |names| ==> names[f] in result && Shaped(result[names[f]], h, w)
    requires forall a, b :: 0 <= a < b < |names| ==> names[a] != names[b]
    ensures DistinctFeatures(Exports(result, h, w, base, names, exportProbability, skipEmpty))
  {
    if names != [] {
      var init := names[..|names| - 1];
      var last := names[|names| - 1];
      ExportsOnce(result, h, w, base, init, exportProbability, skipEmpty);
      ExportsSound(result, h, w, base, init, exportProbability, skipEmpty);
      var before := Exports(result, h, w, base, init, exportProbability, skipEmpty);
      assert last !in init;
      var saved := Exports(result, h, w, base, names, exportProbability, skipEmpty);
      var added := if Selected(result, h, w, last, exportProbability, skipEmpty)
        then [Export(last, PngPath(base, last), ImageOf(result, h, w, last, exportProbability))] else [];
      assert saved == before + added;
      assert DistinctFeatures(before);
      forall a, b | 0 <= a < b < |saved|
        ensures saved[a].feature != saved[b].feature
      {
        if b >= |before| {
          assert saved[a] == before[a] && saved[a] in before;
          assert saved[a].feature in init;
          assert saved[b] == added[0] && saved[b].feature == last;
        } else {
          assert saved[a] == before[a] && saved[b] == before[b];
          assert before[a].feature != before[b].feature;
        }
      }
    }
  }

  /** With the default arguments (binary export, empty masks skipped), a
      feature with no pixel at or above 0.5 is not saved, and one with such
      a pixel is. */
  lemma DefaultExport(result: map<string, Grid>, h: nat, w: nat, base: string, f: nat)
    requires HasFeatures(result, h, w) && f < |FeatureNames|
    ensures (exists e :: e in Exports(result, h, w, base, FeatureNames, false, true) && e.feature == FeatureNames[f])
      <==> exists i, j :: 0 <= i < h && 0 <= j < w && result[FeatureNames[f]][i][j] >= 0.5
  {
    ExportsComplete(result, h, w, base, FeatureNames, false, true);
    var b := AtLeast(result[FeatureNames[f]], 0.5, h, w);
    assert AnySet(b, h, w) <==> exists i, j :: 0 <= i < h && 0 <= j < w && result[FeatureNames[f]][i][j] >= 0.5 by {
      if AnySet(b, h, w) {
        var i, j :| 0 <= i < h && 0 <= j < w && b[i][j];
        assert result[FeatureNames[f]][i][j] >= 0.5;
      }
      if exists i, j :: 0 <= i < h && 0 <= j < w && result[FeatureNames[f]][i][j] >= 0.5 {
        var i, j :| 0 <= i < h && 0 <= j < w && result[FeatureNames[f]][i][j] >= 0.5;
        assert b[i][j];
      }
    }
  }
}
