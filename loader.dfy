/** Loading the data rows: blank rows are dropped, every kept row is stored
    whole (for the report) and, without its last (quality) column, as a
    feature vector (for clustering). The two lists stay index-aligned. */
module Loader {
  import opened Vectors

  /** One spreadsheet cell: its text, which decides whether the cell is
      blank (`strlen`), and its numeric reading (`floatval`, 0 for text that
      is not a number). */
  datatype Cell = Cell(text: string, num: real)

  type Row = seq<Cell>

  /** The number of cells with non-empty text (`count(array_filter($row, 'strlen'))`). */
  function FilledCells(row: Row): nat
  {
    if row == [] then 0 else FilledCells(row[..|row| - 1]) + (if row[|row| - 1].text != "" then 1 else 0)
  }

  /** A row the loader skips: it is empty or none of its cells has text. */
  predicate IsBlank(row: Row)
  {
    row == [] || FilledCells(row) == 0
  }

  /** The feature vector of a row: every column but the last, read as numbers. */
  function Features(row: Row): (p: Point)
    requires row != []
    ensures |p| == |row| - 1
    ensures forall j :: 0 <= j < |p| ==> p[j] == row[j].num
  {
    seq(|row| - 1, j requires 0 <= j < |row| - 1 => row[j].num)
  }

  /** The rows that survive the blank-row filter, in their original order. */
  function KeptRows(data: seq<Row>): seq<Row>
  {
    if data == [] then []
    else KeptRows(data[..|data| - 1]) + (if IsBlank(data[|data| - 1]) then [] else [data[|data| - 1]])
  }

  /** The feature vectors of the kept rows. */
  function Dataset(data: seq<Row>): (ds: seq<Point>)
    ensures |ds| == |KeptRows(data)|
  {
    var kept := KeptRows(data);
    KeptRowsNonEmpty(data);
    seq(|kept|, i requires 0 <= i < |kept| => Features(kept[i]))
  }

  /** The loop over the rows of the sheet (the header already removed). */
  method LoadRows(data: seq<Row>) returns (dataset: seq<Point>, original: seq<Row>)
    ensures original == KeptRows(data)
    ensures dataset == Dataset(data)
    ensures |dataset| == |original|
    ensures forall i :: 0 <= i < |original| ==> original[i] != [] && dataset[i] == Features(original[i])
  {
    dataset, original := [], [];
    var j := 0;
    while j < |data|
      invariant 0 <= j <= |data|
      invariant original == KeptRows(data[..j])
      invariant |dataset| == |original|
      invariant forall i :: 0 <= i < |original| ==> original[i] != [] && dataset[i] == Features(original[i])
    {
      var row := data[j];
      assert data[..j + 1][..j] == data[..j];
      j := j + 1;
      if row == [] || FilledCells(row) == 0 {
        continue;
      }
      var features := Features(row);
      dataset := dataset + [features];
      original := original + [row];
    }
    assert data[..j] == data;
  }

  lemma {:induction false} KeptRowsNonEmpty(data: seq<Row>)
    ensures forall i :: 0 <= i < |KeptRows(data)| ==> KeptRows(data)[i] != []
  {
    if data != [] {
      KeptRowsNonEmpty(data[..|data| - 1]);
    }
  }

  lemma {:induction false} FilledCellsZero(row: Row)
    ensures FilledCells(row) == 0 <==> forall j :: 0 <= j < |row| ==> row[j].text == ""
  {
    if row != [] {
      FilledCellsZero(row[..|row| - 1]);
      var init := row[..|row| - 1];
      assert forall j :: 0 <= j < |init| ==> init[j] == row[j];
    }
  }

  /** A row is kept exactly when it occurs in the data, is non-empty and has
      a cell with non-empty text. */
  lemma {:induction false} KeptRowsMembers(data: seq<Row>, r: Row)
    ensures r in KeptRows(data) <==> r in data && r != [] && exists j :: 0 <= j < |r| && r[j].text != ""
  {
    FilledCellsZero(r);
    if data != [] {
      var init := data[..|data| - 1];
      KeptRowsMembers(init, r);
      assert data == init + [data[|data| - 1]];
    }
  }

  /** Filtering distributes over concatenation, so the kept rows keep their
      relative order. */
  lemma {:induction false} KeptRowsAppend(a: seq<Row>, b: seq<Row>)
    ensures KeptRows(a + b) == KeptRows(a) + KeptRows(b)
  {
    if b == [] {
      assert a + b == a;
    } else {
      var b' := b[..|b| - 1];
      assert (a + b)[..|a + b| - 1] == a + b';
      KeptRowsAppend(a, b');
    }
  }

  /** On a rectangular sheet of width w every feature vector has w - 1
      coordinates. */
  lemma KeptRowsWidth(data: seq<Row>, w: nat, i: nat)
    requires forall j :: 0 <= j < |data| ==> |data[j]| == w
    requires i < |KeptRows(data)|
    ensures |KeptRows(data)[i]| == w
    ensures KeptRows(data)[i] != [] && |Features(KeptRows(data)[i])| == w - 1
  {
    KeptRowsMembers(data, KeptRows(data)[i]);
    KeptRowsNonEmpty(data);
  }
}
