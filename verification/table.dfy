/**
 * `generar_tabla_estilo`: the day's prices laid out as rows of six hours,
 * each row a header line of labels over a line of coloured price cells.
 */
module PriceTable {
  import opened Sequences
  import opened Processing
  import opened Palette

  /** Prices per table row (`array_chunk(..., 6)`). */
  const RowWidth: nat := 6

  /** A price cell and the background colour it is drawn with. */
  datatype Cell = Cell(price: real, color: string)

  datatype TableRow = TableRow(headers: seq<string>, cells: seq<Cell>)

  /** Every price of row `i` lies between the series bounds. */
  lemma ChunkedPricesInRange(s: Series, i: nat)
    requires Displayable(s) && i < |Chunk(s.values, RowWidth)|
    ensures var row := Chunk(s.values, RowWidth)[i];
      forall k :: 0 <= k < |row| ==> Min(s.values) <= row[k] <= Max(s.values)
  {
    var row := Chunk(s.values, RowWidth)[i];
    forall k | 0 <= k < |row|
      ensures Min(s.values) <= row[k] <= Max(s.values)
    {
      var p := row[k];
      assert p in row;
      assert p in s.values;
      var j :| 0 <= j < |s.values| && s.values[j] == p;
    }
  }

  /** The colour of a price cell, scaled between the series bounds. */
  function CellColor(s: Series, p: real): (c: string)
    requires Displayable(s) && Min(s.values) <= p <= Max(s.values)
    ensures c in Colors
  {
    Colors[ColorIndex(p, Min(s.values), Max(s.values))]
  }

  /** `c` is the cell drawn for price `p`. */
  predicate CellFor(s: Series, p: real, c: Cell)
    requires Displayable(s)
  {
    Min(s.values) <= p <= Max(s.values) && c == Cell(p, CellColor(s, p))
  }

  /** `row` shows the labels `labels` over one cell per price of `prices`. */
  predicate RowFor(s: Series, row: TableRow, labels: seq<string>, prices: seq<real>)
    requires Displayable(s)
  {
    && row.headers == labels
    && |row.cells| == |prices|
    && forall k :: 0 <= k < |prices| ==> CellFor(s, prices[k], row.cells[k])
  }

  /**
   * `rows` is the table of `s`: row `i` has the `i`-th chunk of labels as
   * headers and one cell per price of the `i`-th chunk of prices.
   */
  predicate LaysOut(rows: seq<TableRow>, s: Series)
    requires Displayable(s)
  {
    var hours, hourLabels := Chunk(s.values, RowWidth), Chunk(s.labels, RowWidth);
    && |rows| == |hours|
    && |hourLabels| == |hours|
    && forall i :: 0 <= i < |rows| ==> RowFor(s, rows[i], hourLabels[i], hours[i])
  }

  /** The coloured cells of one row of prices (the inner loop over `$row_data`). */
  method PriceCells(s: Series, prices: seq<real>) returns (cells: seq<Cell>)
    requires Displayable(s)
    requires forall k :: 0 <= k < |prices| ==> Min(s.values) <= prices[k] <= Max(s.values)
    ensures |cells| == |prices|
    ensures forall k :: 0 <= k < |prices| ==> CellFor(s, prices[k], cells[k])
  {
    cells := [];
    for k := 0 to |prices|
      invariant |cells| == k
      invariant forall j :: 0 <= j < k ==> CellFor(s, prices[j], cells[j])
    {
      var price := prices[k];
      cells := cells + [Cell(price, CellColor(s, price))];
    }
  }

  /**
   * The styled table of the processed series `data`, or None where the
   * source prints its load-error message.
   */
  method StyledTable(data: Option<Series>) returns (t: Option<seq<TableRow>>)
    requires data.Some? ==> Displayable(data.value)
    ensures t.Some? <==> data.Some?
    ensures t.Some? ==> LaysOut(t.value, data.value)
  {
    if data.None? {
      return None;
    }
    var s := data.value;
    var hours := Chunk(s.values, RowWidth);
    var hourLabels := Chunk(s.labels, RowWidth);
    ChunkShape(s.values, s.labels, RowWidth);
    var rows: seq<TableRow> := [];
    for r := 0 to |hours|
      invariant |rows| == r
      invariant forall i :: 0 <= i < r ==> RowFor(s, rows[i], hourLabels[i], hours[i])
    {
      ChunkedPricesInRange(s, r);
      var cells := PriceCells(s, hours[r]);
      var row := TableRow(hourLabels[r], cells);
      assert RowFor(s, row, hourLabels[r], hours[r]);
      ghost var done := rows;
      rows := rows + [row];
      forall i | 0 <= i <= r
        ensures RowFor(s, rows[i], hourLabels[i], hours[i])
      {
        if i < r {
          assert rows[i] == done[i];
        }
      }
    }
    return Some(rows);
  }

  function HeaderRows(rows: seq<TableRow>): seq<seq<string>>
  {
    seq(|rows|, i requires 0 <= i < |rows| => rows[i].headers)
  }

  function PriceRows(rows: seq<TableRow>): seq<seq<real>>
  {
    seq(|rows|, i requires 0 <= i < |rows| =>
      seq(|rows[i].cells|, k requires 0 <= k < |rows[i].cells| => rows[i].cells[k].price))
  }

  /**
   * The shape of the table: every row has between one and six cells and
   * as many headers as cells, every row but the last has six, reading the
   * headers and the prices row by row gives back the labels and the
   * prices in order, the cheapest price is drawn in the first colour and
   * the dearest in the last.
   */
  lemma {:induction false} TableShape(rows: seq<TableRow>, s: Series)
    requires Displayable(s) && LaysOut(rows, s)
    ensures forall i :: 0 <= i < |rows| ==>
      0 < |rows[i].cells| <= RowWidth && |rows[i].headers| == |rows[i].cells|
    ensures forall i :: 0 <= i < |rows| - 1 ==> |rows[i].cells| == RowWidth
    ensures Flatten(HeaderRows(rows)) == s.labels
    ensures Flatten(PriceRows(rows)) == s.values
    ensures forall i, k :: 0 <= i < |rows| && 0 <= k < |rows[i].cells| && rows[i].cells[k].price == Min(s.values) ==>
      rows[i].cells[k].color == Colors[0]
    ensures forall i, k :: 0 <= i < |rows| && 0 <= k < |rows[i].cells| && rows[i].cells[k].price == Max(s.values) ==>
      rows[i].cells[k].color == Colors[|Colors| - 1]
  {
    var hours, hourLabels := Chunk(s.values, RowWidth), Chunk(s.labels, RowWidth);
    ChunkShape(s.values, s.labels, RowWidth);
    assert HeaderRows(rows) == hourLabels;
    assert PriceRows(rows) == hours by {
      forall i | 0 <= i < |rows|
        ensures PriceRows(rows)[i] == hours[i]
      {
      }
    }
    ColorIndexEnds(Min(s.values), Max(s.values));
  }
}
