/**
 * The grid alignment used by the export endpoint: a common time grid of `resolution` points
 * between the start and end times, and one column per input body holding, at each grid time, the
 * body's last value at or before that time (last observation carried forward). A body that cannot
 * be used gives an all-null column rather than an error.
 */
module TimeseriesAlign {
  import opened Wrappers
  import opened PyStrings
  import opened Tables
  import opened TimeseriesGather

  /** `max(2, min(resolution, 10000))`. */
  function ClampGrid(resolution: int): (n: int)
    ensures 2 <= n <= 10000
    ensures 2 <= resolution <= 10000 ==> n == resolution
    ensures resolution < 2 ==> n == 2
    ensures resolution > 10000 ==> n == 10000
  {
    if resolution > 10000 then 10000 else if resolution < 2 then 2 else resolution
  }

  /** Grid time `i`: `start + (end - start) * i / (n - 1)`, with the division rounded down. */
  function GridPoint(start: int, end: int, n: int, i: int): int
    requires n >= 2
  {
    start + (end - start) * i / (n - 1)
  }

  function Grid(start: int, end: int, n: int): (g: seq<int>)
    requires n >= 2
    ensures |g| == n
    ensures forall i :: 0 <= i < n ==> g[i] == GridPoint(start, end, n, i)
  {
    seq(n, i requires 0 <= i < n => GridPoint(start, end, n, i))
  }

  lemma MulAtLeast(m: int, k: int)
    requires m > 0 && k >= 1
    ensures m * k >= m
  {
    assert m * k == m * (k - 1) + m;
  }

  lemma MulDivCancel(d: int, m: int)
    requires m > 0
    ensures d * m / m == d
  {
    var q := d * m / m;
    var r := d * m % m;
    assert d * m == m * q + r && 0 <= r < m;
    assert m * (d - q) == r;
    if d - q >= 1 {
      MulAtLeast(m, d - q);
    } else if d - q <= -1 {
      MulAtLeast(m, q - d);
    }
  }

  lemma DivMono(a: int, b: int, m: int)
    requires 0 < m && a <= b
    ensures a / m <= b / m
  {
    var qa, qb := a / m, b / m;
    assert a == m * qa + a % m && b == m * qb + b % m;
    if qa > qb {
      MulAtLeast(m, qa - qb);
    }
  }

  lemma MulMono(d: int, i: int, j: int)
    requires d >= 0 && i <= j
    ensures d * i <= d * j
  {
    assert d * j - d * i == d * (j - i);
  }

  /** Between two grid indexes the later time is not earlier, when `start <= end`. */
  lemma GridPointMono(start: int, end: int, n: int, i: int, j: int)
    requires n >= 2 && start <= end && 0 <= i <= j
    ensures GridPoint(start, end, n, i) <= GridPoint(start, end, n, j)
  {
    MulMono(end - start, i, j);
    DivMono((end - start) * i, (end - start) * j, n - 1);
  }

  /** The grid starts at `start`, ends exactly at `end` and, when `start <= end`, never decreases and stays in range. */
  lemma GridBounds(start: int, end: int, n: int)
    requires n >= 2
    ensures Grid(start, end, n)[0] == start
    ensures Grid(start, end, n)[n - 1] == end
    ensures start <= end ==> forall i, j :: 0 <= i <= j < n ==>
      start <= Grid(start, end, n)[i] <= Grid(start, end, n)[j] <= end
  {
    var g := Grid(start, end, n);
    assert g[0] == GridPoint(start, end, n, 0);
    assert g[n - 1] == GridPoint(start, end, n, n - 1);
    MulDivCancel(end - start, n - 1);
    if start <= end {
      forall i, j | 0 <= i <= j < n
        ensures start <= g[i] <= g[j] <= end
      {
        GridPointMono(start, end, n, 0, i);
        GridPointMono(start, end, n, i, j);
        GridPointMono(start, end, n, j, n - 1);
      }
    }
  }

  /** The grid as the `timestamp` column. */
  function GridCells(grid: seq<int>): (cs: seq<Cell>)
    ensures |cs| == |grid|
    ensures forall i :: 0 <= i < |grid| ==> cs[i] == Val(grid[i])
  {
    seq(|grid|, i requires 0 <= i < |grid| => Val(grid[i]))
  }

  /** A body that reads, is non-empty and has both a `timestamp` and a `value` column. */
  predicate Usable(p: Payload) {
    && ReadIpc(p).Some?
    && Height(ReadIpc(p).value) > 0
    && "timestamp" in Names(ReadIpc(p).value)
    && "value" in Names(ReadIpc(p).value)
  }

  /** The body's `(timestamp, value)` rows in the order the reader returns them. */
  function SeriesRows(p: Payload): (rows: seq<Row>)
    requires Usable(p)
    ensures |rows| == Height(ReadIpc(p).value)
    ensures forall i :: 0 <= i < |rows| ==> |rows[i].vals| == 1
  {
    Select(ReadIpc(p).value, ["value"]).rows
  }

  /** The value the backward as-of join puts at time `g`: the matched row's value, or null. */
  function AsOf(sorted: seq<Row>, g: int): Cell
    requires forall i :: 0 <= i < |sorted| ==> |sorted[i].vals| == 1
  {
    match LastAtOrBefore(sorted, g)
    case None => Null
    case Some(k) => sorted[k].vals[0]
  }

  /** `joined.get_column("value")` after `join_asof(..., strategy="backward")` against the grid. */
  function AsOfColumn(sorted: seq<Row>, grid: seq<int>): (cs: seq<Cell>)
    requires forall i :: 0 <= i < |sorted| ==> |sorted[i].vals| == 1
    ensures |cs| == |grid|
  {
    seq(|grid|, i requires 0 <= i < |grid| => AsOf(sorted, grid[i]))
  }

  /** The rows of a usable body sorted by `timestamp`. */
  function SortedSeries(p: Payload): (sorted: seq<Row>)
    requires Usable(p)
    ensures Sorted(sorted) && multiset(sorted) == multiset(SeriesRows(p))
    ensures forall i :: 0 <= i < |sorted| ==> |sorted[i].vals| == 1
  {
    SortKeepsWidth(SeriesRows(p), 1);
    SortRows(SeriesRows(p))
  }

  /** The column body `p` contributes: all null unless the body is usable. */
  function AlignColumn(p: Payload, grid: seq<int>): (cs: seq<Cell>)
    ensures |cs| == |grid|
  {
    if Usable(p) then AsOfColumn(SortedSeries(p), grid) else Nulls(|grid|)
  }

  /** The value columns `value_0 … value_{k-1}` for the first `k` bodies. */
  function ValueColumnsFor(bodies: seq<Payload>, grid: seq<int>, k: nat): (cols: seq<Column>)
    requires k <= |bodies|
    ensures |cols| == k
    ensures forall i :: 0 <= i < k ==> cols[i] == Column(ValueName(i), AlignColumn(bodies[i], grid))
  {
    seq(k, i requires 0 <= i < k => Column(ValueName(i), AlignColumn(bodies[i], grid)))
  }

  lemma ValueColumnsSnoc(bodies: seq<Payload>, grid: seq<int>, k: nat)
    requires k < |bodies|
    ensures ValueColumnsFor(bodies, grid, k + 1)
      == ValueColumnsFor(bodies, grid, k) + [Column(ValueName(k), AlignColumn(bodies[k], grid))]
  {
    var a := ValueColumnsFor(bodies, grid, k + 1);
    var b := ValueColumnsFor(bodies, grid, k) + [Column(ValueName(k), AlignColumn(bodies[k], grid))];
    assert |a| == |b|;
    forall i | 0 <= i < |a| ensures a[i] == b[i] {
      if i < k {
        assert b[i] == ValueColumnsFor(bodies, grid, k)[i];
      }
    }
  }

  /** The aligned frame: the grid as `timestamp`, then `value_i` for body `i`. */
  function Aligned(bodies: seq<Payload>, grid: seq<int>): seq<Column> {
    [Column("timestamp", GridCells(grid))] + ValueColumnsFor(bodies, grid, |bodies|)
  }

  /** `_align_multi_source_to_df_sync`: the grid, then one column per body, added in order. */
  method AlignToGrid(bodies: seq<Payload>, start: int, end: int, resolution: int) returns (result: seq<Column>)
    ensures result == Aligned(bodies, Grid(start, end, ClampGrid(resolution)))
  {
    var n := ClampGrid(resolution);
    var grid := Grid(start, end, n);
    result := [Column("timestamp", GridCells(grid))];
    var idx := 0;
    while idx < |bodies|
      invariant 0 <= idx <= |bodies|
      invariant result == [Column("timestamp", GridCells(grid))] + ValueColumnsFor(bodies, grid, idx)
    {
      var body := bodies[idx];
      var cells: seq<Cell>;
      var table := ReadIpc(body);
      if table.None? {
        cells := Nulls(|grid|);
      } else if Height(table.value) == 0 {
        cells := Nulls(|grid|);
      } else if "timestamp" !in Names(table.value) || "value" !in Names(table.value) {
        cells := Nulls(|grid|);
      } else {
        var sorted := SortedSeries(body);
        cells := AsOfColumn(sorted, grid);
      }
      assert cells == AlignColumn(body, grid);
      ValueColumnsSnoc(bodies, grid, idx);
      result := result + [Column(ValueName(idx), cells)];
      idx := idx + 1;
    }
  }

  /** `value_i` and `value_j` are different names for different `i` and `j`. */
  lemma ValueNameInjective(i: nat, j: nat)
    requires ValueName(i) == ValueName(j)
    ensures i == j
  {
    var p := "value_";
    assert ValueName(i)[|p|..] == NatToString(i);
    assert ValueName(j)[|p|..] == NatToString(j);
    NatToStringInjective(i, j);
  }

  /** `timestamp`, `value_0`, `value_1`, … are pairwise different names. */
  lemma ColumnNamesDistinct(i: int, j: int)
    requires -1 <= i < j
    ensures (if i == -1 then "timestamp" else ValueName(i)) != ValueName(j)
  {
    if i == -1 {
      assert ValueName(j)[0] == 'v';
    } else if ValueName(i) == ValueName(j) {
      ValueNameInjective(i, j);
    }
  }

  lemma AlignedNamesDistinct(bodies: seq<Payload>, grid: seq<int>)
    ensures forall i, j :: 0 <= i < j < |Aligned(bodies, grid)| ==>
      Aligned(bodies, grid)[i].name != Aligned(bodies, grid)[j].name
  {
    var cols := Aligned(bodies, grid);
    forall i, j | 0 <= i < j < |cols| ensures cols[i].name != cols[j].name {
      AlignedName(bodies, grid, i);
      AlignedName(bodies, grid, j);
      ColumnNamesDistinct(i - 1, j - 1);
    }
  }

  lemma AlignedName(bodies: seq<Payload>, grid: seq<int>, i: nat)
    requires i <= |bodies|
    ensures |Aligned(bodies, grid)| == |bodies| + 1
    ensures Aligned(bodies, grid)[i].name == if i == 0 then "timestamp" else ValueName(i - 1)
  {
    if i > 0 {
      assert Aligned(bodies, grid)[i] == ValueColumnsFor(bodies, grid, |bodies|)[i - 1];
    }
  }

  lemma AlignedColumns(bodies: seq<Payload>, grid: seq<int>)
    ensures |Aligned(bodies, grid)| == |bodies| + 1
    ensures Aligned(bodies, grid)[0] == Column("timestamp", GridCells(grid))
    ensures forall i :: 0 <= i < |bodies| ==>
      Aligned(bodies, grid)[i + 1] == Column(ValueName(i), AlignColumn(bodies[i], grid))
  {
    var vs := ValueColumnsFor(bodies, grid, |bodies|);
    var cols := Aligned(bodies, grid);
    forall i | 0 <= i < |bodies|
      ensures cols[i + 1] == Column(ValueName(i), AlignColumn(bodies[i], grid))
    {
      assert cols[i + 1] == vs[i];
    }
  }

  /**
   * The aligned frame is a table: `timestamp` first, then exactly one column `value_i` per body,
   * in body order, holding that body's aligned column; no name twice and every column as long as
   * the grid.
   */
  lemma AlignedShape(bodies: seq<Payload>, grid: seq<int>)
    ensures WellFormed(Aligned(bodies, grid))
    ensures |Aligned(bodies, grid)| == |bodies| + 1
    ensures Aligned(bodies, grid)[0] == Column("timestamp", GridCells(grid))
    ensures forall i :: 0 <= i < |bodies| ==>
      Aligned(bodies, grid)[i + 1] == Column(ValueName(i), AlignColumn(bodies[i], grid))
    ensures forall i :: 0 <= i < |Aligned(bodies, grid)| ==> |Aligned(bodies, grid)[i].cells| == |grid|
  {
    AlignedNamesDistinct(bodies, grid);
    AlignedColumns(bodies, grid);
    var cols := Aligned(bodies, grid);
    forall i | 0 <= i < |cols| ensures |cols[i].cells| == |grid| {
      if i > 0 {
        assert cols[i] == Column(ValueName(i - 1), AlignColumn(bodies[i - 1], grid));
      }
    }
  }

  /** A body that fails to read, is empty or lacks `timestamp` or `value` gives an all-null column, not an error. */
  lemma AlignColumnUnusable(p: Payload, grid: seq<int>)
    requires !Usable(p)
    ensures forall i :: 0 <= i < |grid| ==> AlignColumn(p, grid)[i] == Null
  {
  }

  /**
   * Last observation carried forward: at grid time `g` the column of a usable body is null when
   * none of its rows is at or before `g`; otherwise it is the value of a row whose timestamp is the
   * latest one at or before `g`.
   */
  lemma AlignColumnLocf(p: Payload, grid: seq<int>, i: nat)
    requires Usable(p) && i < |grid|
    ensures (forall r :: r in SeriesRows(p) ==> !AtOrBefore(r.key, grid[i])) ==>
      AlignColumn(p, grid)[i] == Null
    ensures (exists r :: r in SeriesRows(p) && AtOrBefore(r.key, grid[i])) ==>
      exists r :: r in SeriesRows(p) && AtOrBefore(r.key, grid[i]) && AlignColumn(p, grid)[i] == r.vals[0]
        && forall s :: s in SeriesRows(p) && AtOrBefore(s.key, grid[i]) ==> s.key.v <= r.key.v
  {
    var rows := SeriesRows(p);
    var sorted := SortedSeries(p);
    var g := grid[i];
    match LastAtOrBefore(sorted, g)
    case None =>
      forall r | r in rows ensures !AtOrBefore(r.key, g) {
        assert r in multiset(sorted);
      }
    case Some(k) =>
      var r := sorted[k];
      assert r in multiset(rows);
      forall s | s in rows && AtOrBefore(s.key, g) ensures s.key.v <= r.key.v {
        assert s in multiset(sorted);
        var m :| 0 <= m < |sorted| && sorted[m] == s;
        LastAtOrBeforeIsLatest(sorted, g, m);
      }
  }
}
