/**
 * Tables as the timeseries layer handles them after reading an Arrow IPC buffer: a sequence of
 * named columns of equal height. Timestamps are integer seconds and other cells are opaque
 * values; `Null` is a missing cell. The joins, sorts and as-of lookups the backend delegates to
 * Polars are defined here as functions on key/value rows.
 */
module Tables {
  import opened Wrappers

  datatype Cell = Null | Val(v: int)

  datatype Column = Column(name: string, cells: seq<Cell>)

  /** No column name twice and all columns of one height: what a reader hands back. */
  predicate WellFormed(cols: seq<Column>) {
    && (forall i, j :: 0 <= i < j < |cols| ==> cols[i].name != cols[j].name)
    && (forall i :: 0 <= i < |cols| ==> |cols[i].cells| == |cols[0].cells|)
  }

  type Table = cols: seq<Column> | WellFormed(cols) witness []

  /** An IPC buffer: bytes no reader accepts, or the columns the stream encodes. */
  datatype Payload = Corrupt | Encoded(cols: seq<Column>)

  /**
   * `pl.read_ipc` / `ipc.open_stream(...).read_all()`: fails on a corrupt stream, on columns of
   * different lengths and on a repeated column name.
   */
  function ReadIpc(p: Payload): (r: Option<Table>)
    ensures r.Some? <==> p.Encoded? && WellFormed(p.cols)
    ensures r.Some? ==> r.value == p.cols
  {
    if p.Encoded? && WellFormed(p.cols) then Some(p.cols) else None
  }

  function Height(t: Table): nat {
    if t == [] then 0 else |t[0].cells|
  }

  function Names(t: Table): (ns: seq<string>)
    ensures |ns| == |t|
    ensures forall i :: 0 <= i < |t| ==> ns[i] == t[i].name
  {
    seq(|t|, i requires 0 <= i < |t| => t[i].name)
  }

  function IndexOf(names: seq<string>, name: string): (i: nat)
    requires name in names
    ensures i < |names| && names[i] == name
    ensures forall j :: 0 <= j < i ==> names[j] != name
  {
    if names[0] == name then 0 else 1 + IndexOf(names[1..], name)
  }

  /** The cells of the column called `name`. */
  function CellsOf(t: Table, name: string): (cs: seq<Cell>)
    requires name in Names(t)
    ensures |cs| == Height(t)
    ensures exists i :: 0 <= i < |t| && t[i] == Column(name, cs)
  {
    var i := IndexOf(Names(t), name);
    t[i].cells
  }

  /** One row of a keyed frame: its timestamp and its value cells. */
  datatype Row = Row(key: Cell, vals: seq<Cell>)

  /** A frame keyed on `timestamp`: the names of its value columns and its rows. */
  datatype Frame = Frame(names: seq<string>, rows: seq<Row>)

  predicate Rectangular(f: Frame) {
    forall i :: 0 <= i < |f.rows| ==> |f.rows[i].vals| == |f.names|
  }

  /** `df.select(["timestamp"] + valueNames)`, read row by row. */
  function Select(t: Table, valueNames: seq<string>): (f: Frame)
    requires "timestamp" in Names(t)
    requires forall n :: n in valueNames ==> n in Names(t)
    ensures f.names == valueNames && |f.rows| == Height(t) && Rectangular(f)
  {
    var ts := CellsOf(t, "timestamp");
    Frame(valueNames, seq(Height(t), i requires 0 <= i < Height(t) =>
      Row(ts[i], seq(|valueNames|, j requires 0 <= j < |valueNames| => CellsOf(t, valueNames[j])[i]))))
  }

  function Nulls(n: nat): (cs: seq<Cell>)
    ensures |cs| == n && forall i :: 0 <= i < n ==> cs[i] == Null
  {
    seq(n, i => Null)
  }

  // ---------------------------------------------------------------- ordering

  /** Polars' ascending order on a key column: nulls first, then by value. */
  predicate KeyLe(a: Cell, b: Cell) {
    a.Null? || (b.Val? && a.v <= b.v)
  }

  predicate Sorted(rows: seq<Row>) {
    forall i, j :: 0 <= i < j < |rows| ==> KeyLe(rows[i].key, rows[j].key)
  }

  function Insert(r: Row, s: seq<Row>): (t: seq<Row>)
    requires Sorted(s)
    ensures Sorted(t)
    ensures multiset(t) == multiset(s) + multiset{r}
  {
    if s == [] then [r]
    else if KeyLe(r.key, s[0].key) then [r] + s
    else
      var t := Insert(r, s[1..]);
      assert s == [s[0]] + s[1..];
      forall x | x in t ensures KeyLe(s[0].key, x.key) {
        assert x in multiset(t);
        if x != r {
          assert x in multiset(s[1..]);
        }
      }
      [s[0]] + t
  }

  /**
   * `df.sort("timestamp")`: a sorted permutation of the rows. Polars does not keep the input
   * order of rows with equal timestamps (`maintain_order` is off), so the contract promises only
   * sortedness and permutation; this insertion sort happens to be stable, which fixes one of the
   * orders Polars may produce.
   */
  function SortRows(s: seq<Row>): (t: seq<Row>)
    ensures Sorted(t)
    ensures multiset(t) == multiset(s)
  {
    if s == [] then []
    else
      assert s == [s[0]] + s[1..];
      Insert(s[0], SortRows(s[1..]))
  }

  function KeySet(rows: seq<Row>): set<Cell> {
    if rows == [] then {} else {rows[0].key} + KeySet(rows[1..])
  }

  lemma {:induction false} KeySetMember(rows: seq<Row>, k: Cell)
    ensures k in KeySet(rows) <==> exists r :: r in rows && r.key == k
  {
    if rows != [] {
      KeySetMember(rows[1..], k);
      assert rows == [rows[0]] + rows[1..];
      if exists r :: r in rows && r.key == k {
        var r :| r in rows && r.key == k;
        if r != rows[0] {
          assert r in rows[1..];
        }
      }
    }
  }

  lemma {:induction false} KeySetAppend(a: seq<Row>, b: seq<Row>)
    ensures KeySet(a + b) == KeySet(a) + KeySet(b)
  {
    if a == [] {
      assert a + b == b;
    } else {
      assert (a + b)[1..] == a[1..] + b;
      KeySetAppend(a[1..], b);
    }
  }

  /** Sorting keeps exactly the same timestamps. */
  lemma SortKeepsKeys(s: seq<Row>)
    ensures KeySet(SortRows(s)) == KeySet(s)
  {
    var t := SortRows(s);
    forall k ensures k in KeySet(t) <==> k in KeySet(s) {
      KeySetMember(t, k);
      KeySetMember(s, k);
      if k in KeySet(t) {
        var r :| r in t && r.key == k;
        assert r in multiset(t);
      }
      if k in KeySet(s) {
        var r :| r in s && r.key == k;
        assert r in multiset(s);
      }
    }
  }

  /** Every row of a permutation has the widths the rows of the original had. */
  lemma SortKeepsWidth(s: seq<Row>, w: nat)
    requires forall i :: 0 <= i < |s| ==> |s[i].vals| == w
    ensures forall i :: 0 <= i < |SortRows(s)| ==> |SortRows(s)[i].vals| == w
  {
    var t := SortRows(s);
    forall i | 0 <= i < |t| ensures |t[i].vals| == w {
      assert t[i] in multiset(t);
      assert t[i] in s;
    }
  }

  // ---------------------------------------------------------------- full outer join

  /** Join keys match when both are present and equal; a null key matches nothing. */
  predicate Matches(a: Cell, b: Cell) {
    a.Val? && b.Val? && a.v == b.v
  }

  /** The rows of `r` whose key matches `k`, in order. */
  function MatchesIn(k: Cell, r: seq<Row>): (ms: seq<Row>)
    ensures forall x :: x in ms ==> x in r && Matches(k, x.key)
    ensures forall x :: x in r && Matches(k, x.key) ==> x in ms
  {
    if r == [] then []
    else (if Matches(k, r[0].key) then [r[0]] else []) + MatchesIn(k, r[1..])
  }

  /** The joined rows one left row gives: one per matching right row, or one padded with nulls. */
  function JoinOne(a: Row, r: seq<Row>, wr: nat): (out: seq<Row>)
    ensures |out| >= 1
    ensures forall x :: x in out ==> x.key == a.key
  {
    var ms := MatchesIn(a.key, r);
    if ms == [] then [Row(a.key, a.vals + Nulls(wr))]
    else seq(|ms|, i requires 0 <= i < |ms| => Row(a.key, a.vals + ms[i].vals))
  }

  function LeftRows(l: seq<Row>, r: seq<Row>, wr: nat): seq<Row> {
    if l == [] then [] else JoinOne(l[0], r, wr) + LeftRows(l[1..], r, wr)
  }

  /** The right rows no left row matches, padded with nulls on the left. */
  function RightOnlyRows(l: seq<Row>, r: seq<Row>, wl: nat): seq<Row> {
    if r == [] then []
    else
      (if MatchesIn(r[0].key, l) == [] then [Row(r[0].key, Nulls(wl) + r[0].vals)] else [])
      + RightOnlyRows(l, r[1..], wl)
  }

  /** `left.join(right, on="timestamp", how="full", coalesce=True)`, before sorting. */
  function FullJoin(l: seq<Row>, r: seq<Row>, wl: nat, wr: nat): seq<Row> {
    LeftRows(l, r, wr) + RightOnlyRows(l, r, wl)
  }

  lemma {:induction false} LeftRowsKeys(l: seq<Row>, r: seq<Row>, wr: nat)
    ensures KeySet(LeftRows(l, r, wr)) == KeySet(l)
  {
    if l != [] {
      var one := JoinOne(l[0], r, wr);
      LeftRowsKeys(l[1..], r, wr);
      KeySetAppend(one, LeftRows(l[1..], r, wr));
      KeySetAppend([l[0]], l[1..]);
      assert l == [l[0]] + l[1..];
      assert KeySet(one) == {l[0].key} by {
        forall k ensures k in KeySet(one) <==> k == l[0].key {
          KeySetMember(one, k);
          assert one[0] in one;
        }
      }
    }
  }

  lemma {:induction false} RightOnlyKeys(l: seq<Row>, r: seq<Row>, wl: nat)
    ensures KeySet(RightOnlyRows(l, r, wl)) <= KeySet(r)
    ensures KeySet(r) <= KeySet(RightOnlyRows(l, r, wl)) + KeySet(l)
  {
    if r != [] {
      var head := if MatchesIn(r[0].key, l) == [] then [Row(r[0].key, Nulls(wl) + r[0].vals)] else [];
      RightOnlyKeys(l, r[1..], wl);
      KeySetAppend(head, RightOnlyRows(l, r[1..], wl));
      KeySetAppend([r[0]], r[1..]);
      assert r == [r[0]] + r[1..];
      if MatchesIn(r[0].key, l) != [] {
        var x := MatchesIn(r[0].key, l)[0];
        assert x in l && x.key == r[0].key;
        KeySetMember(l, r[0].key);
      }
    }
  }

  /** The joined timestamps are exactly the timestamps of either side. */
  lemma FullJoinKeys(l: seq<Row>, r: seq<Row>, wl: nat, wr: nat)
    ensures KeySet(FullJoin(l, r, wl, wr)) == KeySet(l) + KeySet(r)
  {
    LeftRowsKeys(l, r, wr);
    RightOnlyKeys(l, r, wl);
    KeySetAppend(LeftRows(l, r, wr), RightOnlyRows(l, r, wl));
  }

  lemma {:induction false} FullJoinWidth(l: seq<Row>, r: seq<Row>, wl: nat, wr: nat)
    requires forall i :: 0 <= i < |l| ==> |l[i].vals| == wl
    requires forall i :: 0 <= i < |r| ==> |r[i].vals| == wr
    ensures forall x :: x in FullJoin(l, r, wl, wr) ==> |x.vals| == wl + wr
  {
    LeftRowsWidth(l, r, wl, wr);
    RightOnlyWidth(l, r, wl, wr);
  }

  lemma {:induction false} LeftRowsWidth(l: seq<Row>, r: seq<Row>, wl: nat, wr: nat)
    requires forall i :: 0 <= i < |l| ==> |l[i].vals| == wl
    requires forall i :: 0 <= i < |r| ==> |r[i].vals| == wr
    ensures forall x :: x in LeftRows(l, r, wr) ==> |x.vals| == wl + wr
  {
    if l != [] {
      LeftRowsWidth(l[1..], r, wl, wr);
      var ms := MatchesIn(l[0].key, r);
      forall x | x in ms ensures |x.vals| == wr {
        var i :| 0 <= i < |r| && r[i] == x;
      }
    }
  }

  lemma {:induction false} RightOnlyWidth(l: seq<Row>, r: seq<Row>, wl: nat, wr: nat)
    requires forall i :: 0 <= i < |r| ==> |r[i].vals| == wr
    ensures forall x :: x in RightOnlyRows(l, r, wl) ==> |x.vals| == wl + wr
  {
    if r != [] {
      RightOnlyWidth(l, r[1..], wl, wr);
    }
  }

  // ---------------------------------------------------------------- as-of lookup

  /** A row whose timestamp is present and at or before `g`. */
  predicate AtOrBefore(k: Cell, g: int) {
    k.Val? && k.v <= g
  }

  /**
   * `join_asof(..., strategy="backward")` for one left time `g`: the index of the last row whose
   * timestamp is at or before `g`, or `None` when there is no such row.
   */
  function LastAtOrBefore(rows: seq<Row>, g: int): (r: Option<nat>)
    ensures r.Some? ==> r.value < |rows| && AtOrBefore(rows[r.value].key, g)
    ensures r.Some? ==> forall k :: r.value < k < |rows| ==> !AtOrBefore(rows[k].key, g)
    ensures r.None? ==> forall k :: 0 <= k < |rows| ==> !AtOrBefore(rows[k].key, g)
  {
    if rows == [] then None
    else if AtOrBefore(rows[|rows| - 1].key, g) then Some(|rows| - 1)
    else LastAtOrBefore(rows[..|rows| - 1], g)
  }

  /** On sorted rows the match is the latest timestamp at or before `g`. */
  lemma LastAtOrBeforeIsLatest(rows: seq<Row>, g: int, k: nat)
    requires Sorted(rows)
    requires k < |rows| && AtOrBefore(rows[k].key, g)
    ensures LastAtOrBefore(rows, g).Some?
    ensures rows[k].key.v <= rows[LastAtOrBefore(rows, g).value].key.v <= g
  {
    var j := LastAtOrBefore(rows, g).value;
    if k < j {
      assert KeyLe(rows[k].key, rows[j].key);
    }
  }
}
