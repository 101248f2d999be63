/**
 * The multi-source gather of the alignment endpoint: one Arrow buffer per source, each with a
 * `timestamp` column and one or more value columns, merged into a single frame whose value
 * columns are renumbered `value_0 … value_{K-1}` across sources and whose rows are the full outer
 * join of all sources on `timestamp`, sorted.
 */
module TimeseriesGather {
  import opened Wrappers
  import opened PyStrings
  import opened Tables

  /** The `ValueError`s the gather raises. */
  datatype GatherError = NoBuffers | InvalidIpc | MissingTimestamp | NoValueColumn | AllEmpty

  /** The error text the endpoint returns with status 502 (the reader's own detail is not modelled). */
  function Message(e: GatherError): string {
    match e
    case NoBuffers => "No Arrow buffers to merge"
    case InvalidIpc => "Invalid Arrow IPC"
    case MissingTimestamp => "Arrow table must have 'timestamp' column"
    case NoValueColumn => "Arrow table must have at least one value column"
    case AllEmpty => "No non-empty DataFrames after parsing"
  }

  /** A column the gather treats as a value column: `value` or `value_<anything>`. */
  predicate IsValueColumn(name: string) {
    name != "timestamp" && (name == "value" || StartsWith(name, "value_"))
  }

  /** The value columns of a table, in the table's own column order. */
  function ValueColumns(names: seq<string>): (vs: seq<string>)
    ensures forall n :: n in vs <==> n in names && IsValueColumn(n)
  {
    if names == [] then []
    else (if IsValueColumn(names[0]) then [names[0]] else []) + ValueColumns(names[1..])
  }

  /** `f"value_{n}"`. */
  function ValueName(n: nat): string {
    "value_" + NatToString(n)
  }

  /** The names `value_{from}` … `value_{from+count-1}`. */
  function ValueNames(from: nat, count: nat): (ns: seq<string>)
    ensures |ns| == count
    ensures forall i :: 0 <= i < count ==> ns[i] == ValueName(from + i)
  {
    seq(count, i requires 0 <= i < count => ValueName(from + i))
  }

  lemma ValueNamesSplit(from: nat, a: nat, b: nat)
    ensures ValueNames(from, a) + ValueNames(from + a, b) == ValueNames(from, a + b)
  {
  }

  /** What the gather does with one buffer. */
  datatype Verdict = Reject(error: GatherError) | Skip | Keep(frame: Frame)

  /** The checks of one loop iteration, in their order: read, height, `timestamp`, value columns. */
  function Classify(p: Payload): (v: Verdict)
    ensures v == Reject(InvalidIpc) <==> ReadIpc(p).None?
    ensures v == Skip <==> ReadIpc(p).Some? && Height(ReadIpc(p).value) == 0
    ensures v == Reject(MissingTimestamp) <==>
      ReadIpc(p).Some? && Height(ReadIpc(p).value) > 0 && "timestamp" !in Names(ReadIpc(p).value)
    ensures v == Reject(NoValueColumn) <==>
      && ReadIpc(p).Some? && Height(ReadIpc(p).value) > 0 && "timestamp" in Names(ReadIpc(p).value)
      && forall n :: n in Names(ReadIpc(p).value) ==> !IsValueColumn(n)
    ensures v.Reject? ==> v.error != NoBuffers && v.error != AllEmpty
    ensures v.Keep? ==>
      && v.frame.names == ValueColumns(Names(ReadIpc(p).value)) && v.frame.names != []
      && |v.frame.rows| == Height(ReadIpc(p).value) > 0 && Rectangular(v.frame)
  {
    match ReadIpc(p)
    case None => Reject(InvalidIpc)
    case Some(t) =>
      if Height(t) == 0 then Skip
      else if "timestamp" !in Names(t) then Reject(MissingTimestamp)
      else
        var vs := ValueColumns(Names(t));
        if vs == [] then
          assert forall n :: n in Names(t) ==> !IsValueColumn(n);
          Reject(NoValueColumn)
        else
          assert vs[0] in Names(t) && IsValueColumn(vs[0]);
          Keep(Select(t, vs))
  }

  /** The first loop: the frames kept, or the first buffer's rejection. */
  function Collect(bodies: seq<Payload>): (r: Result<seq<Frame>, GatherError>)
    ensures r.Ok? ==> forall f :: f in r.value ==> Rectangular(f) && f.names != []
  {
    if bodies == [] then Ok([])
    else
      match Classify(bodies[0])
      case Reject(e) => Err(e)
      case Skip => Collect(bodies[1..])
      case Keep(f) =>
        match Collect(bodies[1..])
        case Err(e) => Err(e)
        case Ok(fs) => Ok([f] + fs)
  }

  /** The sum of the frames' value-column counts. */
  function Width(fs: seq<Frame>): nat {
    if fs == [] then 0 else Width(fs[..|fs| - 1]) + |fs[|fs| - 1].names|
  }

  /** Every timestamp of every frame. */
  function UnionKeys(fs: seq<Frame>): set<Cell> {
    if fs == [] then {} else UnionKeys(fs[..|fs| - 1]) + KeySet(fs[|fs| - 1].rows)
  }

  /** The frame with its value columns renamed from `value_{from}` on. */
  function Renamed(f: Frame, from: nat): Frame {
    Frame(ValueNames(from, |f.names|), f.rows)
  }

  /** One iteration of the second loop: rename `f` from `value_{next}`, full-join it onto `base`, sort. */
  function JoinNext(base: Frame, f: Frame, next: nat): Frame {
    var g := Renamed(f, next);
    Frame(base.names + g.names, SortRows(FullJoin(base.rows, g.rows, |base.names|, |g.names|)))
  }

  /** Where the value columns of the k-th kept frame start: the width of the frames before it. */
  function Offset(fs: seq<Frame>, k: nat): nat
    requires k <= |fs|
  {
    Width(fs[..k])
  }

  /**
   * The frame the second loop holds once the first `n` frames are in: the first renamed from
   * `value_0`, each further one renamed from its offset, full-joined on and sorted.
   */
  function JoinUpTo(fs: seq<Frame>, n: nat): Frame
    requires 1 <= n <= |fs|
  {
    if n == 1 then Renamed(fs[0], 0)
    else JoinNext(JoinUpTo(fs, n - 1), fs[n - 1], Offset(fs, n - 1))
  }

  /** `_gather_arrow_to_aligned_df`, as a function of the buffers. */
  function Gather(bodies: seq<Payload>): Result<Frame, GatherError> {
    if bodies == [] then Err(NoBuffers)
    else
      match Collect(bodies)
      case Err(e) => Err(e)
      case Ok(fs) =>
        if fs == [] then Err(AllEmpty)
        else
          var b := JoinUpTo(fs, |fs|);
          Ok(Frame(b.names, SortRows(b.rows)))
  }

  // ---------------------------------------------------------------- the imperative gather

  function PrependOk(fs: seq<Frame>, r: Result<seq<Frame>, GatherError>): Result<seq<Frame>, GatherError> {
    match r
    case Err(e) => Err(e)
    case Ok(gs) => Ok(fs + gs)
  }

  lemma CollectStep(bodies: seq<Payload>, i: nat)
    requires i < |bodies|
    ensures Classify(bodies[i]).Reject? ==> Collect(bodies[i..]) == Err(Classify(bodies[i]).error)
    ensures Classify(bodies[i]).Skip? ==> Collect(bodies[i..]) == Collect(bodies[i + 1..])
    ensures Classify(bodies[i]).Keep? ==>
      Collect(bodies[i..]) == PrependOk([Classify(bodies[i]).frame], Collect(bodies[i + 1..]))
  {
    assert bodies[i..][0] == bodies[i] && bodies[i..][1..] == bodies[i + 1..];
  }

  lemma PrependOkSnoc(fs: seq<Frame>, f: Frame, r: Result<seq<Frame>, GatherError>)
    ensures PrependOk(fs, PrependOk([f], r)) == PrependOk(fs + [f], r)
  {
    if r.Ok? {
      assert fs + ([f] + r.value) == (fs + [f]) + r.value;
    }
  }

  /** The first loop of `_gather_arrow_to_aligned_df`: read and check each buffer in turn. */
  method CollectFrames(bodies: seq<Payload>) returns (r: Result<seq<Frame>, GatherError>)
    ensures r == Collect(bodies)
  {
    var frames: seq<Frame> := [];
    var i := 0;
    assert bodies[0..] == bodies;
    assert PrependOk([], Collect(bodies)) == Collect(bodies) by {
      if Collect(bodies).Ok? {
        assert [] + Collect(bodies).value == Collect(bodies).value;
      }
    }
    while i < |bodies|
      invariant 0 <= i <= |bodies|
      invariant Collect(bodies) == PrependOk(frames, Collect(bodies[i..]))
    {
      CollectStep(bodies, i);
      var v := Classify(bodies[i]);
      if v.Reject? {
        return Err(v.error);
      } else if v.Keep? {
        PrependOkSnoc(frames, v.frame, Collect(bodies[i + 1..]));
        frames := frames + [v.frame];
      }
      i := i + 1;
    }
    assert bodies[i..] == [];
    assert frames + [] == frames;
    return Ok(frames);
  }

  /** The second loop: rename each frame's value columns from the running index and join it on. */
  method JoinFrames(frames: seq<Frame>) returns (base: Frame)
    requires frames != []
    ensures base == JoinUpTo(frames, |frames|)
  {
    var globalIdx: nat := 0;
    base := Renamed(frames[0], globalIdx);
    globalIdx := globalIdx + |frames[0].names|;
    assert frames[..0] == [];
    OffsetStep(frames, 0);
    var j := 1;
    while j < |frames|
      invariant 1 <= j <= |frames|
      invariant base == JoinUpTo(frames, j) && globalIdx == Offset(frames, j)
    {
      OffsetStep(frames, j);
      base := JoinNext(base, frames[j], globalIdx);
      globalIdx := globalIdx + |frames[j].names|;
      j := j + 1;
    }
  }

  /** `_gather_arrow_to_aligned_df`: the buffers' frames joined on `timestamp` and sorted. */
  method GatherAligned(bodies: seq<Payload>) returns (r: Result<Frame, GatherError>)
    ensures r == Gather(bodies)
  {
    if bodies == [] {
      return Err(NoBuffers);
    }
    var collected := CollectFrames(bodies);
    if collected.Err? {
      return Err(collected.error);
    }
    var frames := collected.value;
    if frames == [] {
      return Err(AllEmpty);
    }
    var base := JoinFrames(frames);
    return Ok(Frame(base.names, SortRows(base.rows)));
  }

  // ---------------------------------------------------------------- what the gather promises

  /** The first loop succeeds exactly when no buffer is rejected. */
  lemma {:induction false} CollectOkIff(bodies: seq<Payload>)
    ensures Collect(bodies).Ok? <==> forall i :: 0 <= i < |bodies| ==> !Classify(bodies[i]).Reject?
  {
    if bodies != [] {
      CollectOkIff(bodies[1..]);
      assert forall i :: 1 <= i < |bodies| ==> bodies[i] == bodies[1..][i - 1];
    }
  }

  /** A failing first loop reports the first rejected buffer's error. */
  lemma {:induction false} CollectFirstError(bodies: seq<Payload>) returns (i: nat)
    requires Collect(bodies).Err?
    ensures i < |bodies| && Classify(bodies[i]) == Reject(Collect(bodies).error)
    ensures forall k :: 0 <= k < i ==> !Classify(bodies[k]).Reject?
  {
    if Classify(bodies[0]).Reject? {
      i := 0;
    } else {
      var j := CollectFirstError(bodies[1..]);
      i := j + 1;
      assert forall k :: 1 <= k <= i ==> bodies[k] == bodies[1..][k - 1];
    }
  }

  /** The frames of a successful first loop are exactly those of the kept buffers. */
  lemma {:induction false} CollectKept(bodies: seq<Payload>, f: Frame)
    requires Collect(bodies).Ok?
    ensures f in Collect(bodies).value <==> exists i :: 0 <= i < |bodies| && Classify(bodies[i]) == Keep(f)
  {
    if bodies != [] {
      var rest := bodies[1..];
      CollectKept(rest, f);
      if f in Collect(bodies).value && Classify(bodies[0]) != Keep(f) {
        var i :| 0 <= i < |rest| && Classify(rest[i]) == Keep(f);
        assert Classify(bodies[i + 1]) == Keep(f);
      }
      if exists i :: 0 <= i < |bodies| && Classify(bodies[i]) == Keep(f) {
        var i :| 0 <= i < |bodies| && Classify(bodies[i]) == Keep(f);
        if i > 0 {
          assert Classify(rest[i - 1]) == Keep(f);
        }
      }
    }
  }

  lemma OffsetStep(fs: seq<Frame>, k: nat)
    requires k < |fs|
    ensures Offset(fs, k + 1) == Offset(fs, k) + |fs[k].names|
  {
    assert fs[..k + 1][..k] == fs[..k];
  }

  lemma {:induction false} OffsetMono(fs: seq<Frame>, k: nat, n: nat)
    requires k < n <= |fs|
    ensures Offset(fs, k) + |fs[k].names| <= Offset(fs, n)
    decreases n - k
  {
    OffsetStep(fs, k);
    if k + 1 < n {
      OffsetMono(fs, k + 1, n);
      OffsetStep(fs, k + 1);
    }
  }

  /**
   * A block of a row: the cells of one source frame, placed at that frame's offset. They are the
   * cells of a row of that frame with the same timestamp, or nulls when no row of that frame has
   * a timestamp the row's matches.
   */
  predicate BlockFrom(row: Row, f: Frame, off: nat)
    requires off + |f.names| <= |row.vals|
  {
    var blk := row.vals[off..off + |f.names|];
    || (exists x :: x in f.rows && x.key == row.key && x.vals == blk)
    || (blk == Nulls(|f.names|) && forall x :: x in f.rows ==> !Matches(row.key, x.key))
  }

  /** The cells of frame `k` in `row` are all null or come from a row of frame `k` with the row's timestamp. */
  predicate BlockOk(row: Row, fs: seq<Frame>, k: nat) {
    && k < |fs|
    && Offset(fs, k) + |fs[k].names| <= |row.vals|
    && BlockFrom(row, fs[k], Offset(fs, k))
  }

  /** A row of the join of the first `n` frames. */
  predicate RowJoined(row: Row, fs: seq<Frame>, n: nat) {
    && n <= |fs|
    && |row.vals| == Offset(fs, n)
    && forall k :: 0 <= k < n ==> BlockOk(row, fs, k)
  }

  predicate AllJoined(rows: seq<Row>, fs: seq<Frame>, n: nat) {
    forall row :: row in rows ==> RowJoined(row, fs, n)
  }

  /** `row` holds the cells `blk` where frame `k`'s columns sit. */
  predicate HasBlock(row: Row, fs: seq<Frame>, k: nat, blk: seq<Cell>) {
    && k < |fs|
    && Offset(fs, k) + |fs[k].names| <= |row.vals|
    && row.vals[Offset(fs, k)..Offset(fs, k) + |fs[k].names|] == blk
  }

  /** Row `x` of frame `k` reappears in `rows`, with its timestamp, at its frame's offset. */
  predicate Carried(x: Row, rows: seq<Row>, fs: seq<Frame>, k: nat) {
    exists row :: row in rows && row.key == x.key && HasBlock(row, fs, k, x.vals)
  }

  /** Every row of the first `n` frames is carried into `rows`. */
  predicate Covered(rows: seq<Row>, fs: seq<Frame>, n: nat) {
    && n <= |fs|
    && forall k, x :: 0 <= k < n && x in fs[k].rows ==> Carried(x, rows, fs, k)
  }

  /** Extending a row of the first `n` frames on the right keeps its earlier blocks. */
  lemma PrefixBlocks(a: Row, row: Row, fs: seq<Frame>, n: nat)
    requires RowJoined(a, fs, n)
    requires row.key == a.key && |a.vals| <= |row.vals| && row.vals[..|a.vals|] == a.vals
    ensures forall k :: 0 <= k < n ==> BlockOk(row, fs, k)
  {
    forall k | 0 <= k < n ensures BlockOk(row, fs, k) {
      assert BlockOk(a, fs, k);
      var off := Offset(fs, k);
      SliceOfPrefix(row.vals, a.vals, off, off + |fs[k].names|);
    }
  }

  /** A slice inside a prefix is the same slice of the whole sequence. */
  lemma SliceOfPrefix(x: seq<Cell>, y: seq<Cell>, lo: nat, hi: nat)
    requires lo <= hi <= |y| <= |x| && x[..|y|] == y
    ensures x[lo..hi] == y[lo..hi]
  {
    forall i | 0 <= i < hi - lo ensures x[lo..hi][i] == y[lo..hi][i] {
      assert x[lo + i] == x[..|y|][lo + i];
    }
  }

  lemma SliceAfter(p: seq<Cell>, q: seq<Cell>)
    ensures (p + q)[|p|..|p| + |q|] == q
  {
  }

  /** A row that is nulls for the first `n` frames, whose timestamp none of them matches, has all-null earlier blocks. */
  lemma NullBlocks(row: Row, fs: seq<Frame>, n: nat)
    requires n <= |fs| && Offset(fs, n) <= |row.vals| && row.vals[..Offset(fs, n)] == Nulls(Offset(fs, n))
    requires forall k, x :: 0 <= k < n && x in fs[k].rows ==> !Matches(row.key, x.key)
    ensures forall k :: 0 <= k < n ==> BlockOk(row, fs, k)
  {
    forall k | 0 <= k < n ensures BlockOk(row, fs, k) {
      OffsetMono(fs, k, n);
      var off := Offset(fs, k);
      assert row.vals[off..off + |fs[k].names|] == Nulls(|fs[k].names|);
    }
  }

  /** Where a left-side joined row comes from: a left row, and the right row it matched if any. */
  lemma {:induction false} LeftSource(l: seq<Row>, r: seq<Row>, wr: nat, row: Row) returns (a: Row)
    requires row in LeftRows(l, r, wr)
    ensures a in l && row.key == a.key
    ensures |a.vals| <= |row.vals| && row.vals[..|a.vals|] == a.vals
    ensures || (row.vals[|a.vals|..] == Nulls(wr) && forall x :: x in r ==> !Matches(row.key, x.key))
            || (exists x :: x in r && x.key == row.key && x.vals == row.vals[|a.vals|..])
  {
    if row in JoinOne(l[0], r, wr) {
      a := l[0];
      var ms := MatchesIn(a.key, r);
      if ms == [] {
        assert row == Row(a.key, a.vals + Nulls(wr));
      } else {
        var i :| 0 <= i < |ms| && row == Row(a.key, a.vals + ms[i].vals);
        assert ms[i] in ms;
        assert row.vals[|a.vals|..] == ms[i].vals;
      }
    } else {
      a := LeftSource(l[1..], r, wr, row);
    }
  }

  /** A right-only joined row: null cells for the left, then a right row no left row matches. */
  lemma {:induction false} RightSource(l: seq<Row>, r: seq<Row>, wl: nat, row: Row) returns (b: Row)
    requires row in RightOnlyRows(l, r, wl)
    ensures b in r && row == Row(b.key, Nulls(wl) + b.vals) && MatchesIn(b.key, l) == []
  {
    if MatchesIn(r[0].key, l) == [] && row == Row(r[0].key, Nulls(wl) + r[0].vals) {
      b := r[0];
    } else {
      b := RightSource(l, r[1..], wl, row);
    }
  }

  /** A row of the first `n` frames, extended with null cells or a matching row of frame `n`. */
  lemma LeftRowJoined(a: Row, row: Row, fs: seq<Frame>, n: nat)
    requires n < |fs| && Rectangular(fs[n]) && RowJoined(a, fs, n)
    requires row.key == a.key && |a.vals| <= |row.vals| && row.vals[..|a.vals|] == a.vals
    requires || (row.vals[|a.vals|..] == Nulls(|fs[n].names|) && forall x :: x in fs[n].rows ==> !Matches(row.key, x.key))
             || (exists x :: x in fs[n].rows && x.key == row.key && x.vals == row.vals[|a.vals|..])
    ensures RowJoined(row, fs, n + 1)
  {
    var w, f := Offset(fs, n), fs[n];
    OffsetStep(fs, n);
    if exists x :: x in f.rows && x.key == row.key && x.vals == row.vals[w..] {
      var x :| x in f.rows && x.key == row.key && x.vals == row.vals[w..];
      var i :| 0 <= i < |f.rows| && f.rows[i] == x;
    }
    PrefixBlocks(a, row, fs, n);
    assert row.vals[w..w + |f.names|] == row.vals[w..];
    assert BlockOk(row, fs, n);
  }

  /** A row of frame `n` padded on the left with nulls for the first `n` frames. */
  lemma RightRowJoined(b: Row, row: Row, fs: seq<Frame>, n: nat)
    requires n < |fs| && Rectangular(fs[n]) && b in fs[n].rows
    requires row == Row(b.key, Nulls(Offset(fs, n)) + b.vals)
    requires forall k, x :: 0 <= k < n && x in fs[k].rows ==> !Matches(b.key, x.key)
    ensures RowJoined(row, fs, n + 1)
  {
    var w, f := Offset(fs, n), fs[n];
    OffsetStep(fs, n);
    var i :| 0 <= i < |f.rows| && f.rows[i] == b;
    assert row.vals[..w] == Nulls(w);
    NullBlocks(row, fs, n);
    assert row.vals[w..w + |f.names|] == b.vals;
    assert BlockOk(row, fs, n);
  }

  /** A timestamp no row of `rows` matches is matched by no row of a frame `rows` covers. */
  lemma UnmatchedEarlier(b: Row, rows: seq<Row>, fs: seq<Frame>, n: nat)
    requires Covered(rows, fs, n) && MatchesIn(b.key, rows) == []
    ensures forall k, x :: 0 <= k < n && x in fs[k].rows ==> !Matches(b.key, x.key)
  {
    forall k, x | 0 <= k < n && x in fs[k].rows ensures !Matches(b.key, x.key) {
      assert Carried(x, rows, fs, k);
      var row :| row in rows && row.key == x.key && HasBlock(row, fs, k, x.vals);
      assert row !in MatchesIn(b.key, rows);
    }
  }

  /** Joining frame `n` onto rows of the first `n` frames gives rows of the first `n + 1`. */
  lemma JoinStep(rows: seq<Row>, fs: seq<Frame>, n: nat)
    requires n < |fs| && Rectangular(fs[n])
    requires AllJoined(rows, fs, n) && Covered(rows, fs, n)
    ensures AllJoined(FullJoin(rows, fs[n].rows, Offset(fs, n), |fs[n].names|), fs, n + 1)
  {
    var w, f := Offset(fs, n), fs[n];
    forall row | row in FullJoin(rows, f.rows, w, |f.names|) ensures RowJoined(row, fs, n + 1) {
      if row in LeftRows(rows, f.rows, |f.names|) {
        var a := LeftSource(rows, f.rows, |f.names|, row);
        LeftRowJoined(a, row, fs, n);
      } else {
        var b := RightSource(rows, f.rows, w, row);
        UnmatchedEarlier(b, rows, fs, n);
        RightRowJoined(b, row, fs, n);
      }
    }
  }

  /** The rows the i-th left row gives are among the left-side joined rows. */
  lemma {:induction false} JoinOneInLeftRows(l: seq<Row>, r: seq<Row>, wr: nat, i: nat, y: Row)
    requires i < |l| && y in JoinOne(l[i], r, wr)
    ensures y in LeftRows(l, r, wr)
  {
    var one, rest := JoinOne(l[0], r, wr), LeftRows(l[1..], r, wr);
    assert LeftRows(l, r, wr) == one + rest;
    if i == 0 {
      assert y in one;
    } else {
      assert l[1..][i - 1] == l[i];
      JoinOneInLeftRows(l[1..], r, wr, i - 1, y);
      assert y in rest;
    }
  }

  lemma InLeftRows(l: seq<Row>, r: seq<Row>, wl: nat, wr: nat, y: Row)
    requires y in LeftRows(l, r, wr)
    ensures y in FullJoin(l, r, wl, wr)
  {
    var a, b := LeftRows(l, r, wr), RightOnlyRows(l, r, wl);
    assert y in a + b;
  }

  lemma InRightOnlyRows(l: seq<Row>, r: seq<Row>, wl: nat, wr: nat, y: Row)
    requires y in RightOnlyRows(l, r, wl)
    ensures y in FullJoin(l, r, wl, wr)
  {
    var a, b := LeftRows(l, r, wr), RightOnlyRows(l, r, wl);
    assert y in a + b;
  }

  /** A left row's first joined row starts with the left row's cells. */
  lemma JoinOneFirst(a: Row, r: seq<Row>, wr: nat)
    ensures JoinOne(a, r, wr)[0].key == a.key
    ensures |a.vals| <= |JoinOne(a, r, wr)[0].vals| && JoinOne(a, r, wr)[0].vals[..|a.vals|] == a.vals
  {
  }

  /** A left row and a right row with matching timestamps give one joined row holding both. */
  lemma JoinOneHas(a: Row, r: seq<Row>, wr: nat, x: Row)
    requires x in r && Matches(a.key, x.key)
    ensures Row(a.key, a.vals + x.vals) in JoinOne(a, r, wr)
  {
    var ms := MatchesIn(a.key, r);
    var i :| 0 <= i < |ms| && ms[i] == x;
    assert JoinOne(a, r, wr)[i] == Row(a.key, a.vals + x.vals);
  }

  /** A right row no left row matches reappears, padded with nulls on the left. */
  lemma {:induction false} RightOnlyHas(l: seq<Row>, r: seq<Row>, wl: nat, i: nat)
    requires i < |r| && MatchesIn(r[i].key, l) == []
    ensures Row(r[i].key, Nulls(wl) + r[i].vals) in RightOnlyRows(l, r, wl)
  {
    if i > 0 {
      RightOnlyHas(l, r[1..], wl, i - 1);
      assert r[1..][i - 1] == r[i];
    }
  }

  /** A left row's first joined row is a row of the full join. */
  lemma FirstInJoin(l: seq<Row>, r: seq<Row>, wl: nat, wr: nat, i: nat)
    requires i < |l|
    ensures JoinOne(l[i], r, wr)[0] in FullJoin(l, r, wl, wr)
  {
    var y := JoinOne(l[i], r, wr)[0];
    JoinOneInLeftRows(l, r, wr, i, y);
    InLeftRows(l, r, wl, wr, y);
  }

  /** Extending a row on the right keeps its block of frame `k`. */
  lemma PrefixBlock(a: Row, y: Row, fs: seq<Frame>, k: nat, blk: seq<Cell>)
    requires HasBlock(a, fs, k, blk)
    requires |a.vals| <= |y.vals| && y.vals[..|a.vals|] == a.vals
    ensures HasBlock(y, fs, k, blk)
  {
    SliceOfPrefix(y.vals, a.vals, Offset(fs, k), Offset(fs, k) + |fs[k].names|);
  }

  /** An earlier frame's row stays in the join: the left row holding it is extended, never dropped. */
  lemma KeptLeft(rows: seq<Row>, fs: seq<Frame>, n: nat, k: nat, x: Row)
    requires n < |fs| && k < n && x in fs[k].rows && Covered(rows, fs, n)
    ensures Carried(x, FullJoin(rows, fs[n].rows, Offset(fs, n), |fs[n].names|), fs, k)
  {
    var f := fs[n];
    assert Carried(x, rows, fs, k);
    var a :| a in rows && a.key == x.key && HasBlock(a, fs, k, x.vals);
    var i :| 0 <= i < |rows| && rows[i] == a;
    JoinOneFirst(a, f.rows, |f.names|);
    FirstInJoin(rows, f.rows, Offset(fs, n), |f.names|, i);
    PrefixBlock(a, JoinOne(a, f.rows, |f.names|)[0], fs, k, x.vals);
  }

  /** A row of frame `n` no earlier row matches enters the join on its own, with null cells before it. */
  lemma KeptAlone(rows: seq<Row>, fs: seq<Frame>, n: nat, i: nat)
    requires n < |fs| && Rectangular(fs[n]) && i < |fs[n].rows|
    requires MatchesIn(fs[n].rows[i].key, rows) == []
    ensures Carried(fs[n].rows[i], FullJoin(rows, fs[n].rows, Offset(fs, n), |fs[n].names|), fs, n)
  {
    var w, f, x := Offset(fs, n), fs[n], fs[n].rows[i];
    OffsetStep(fs, n);
    RightOnlyHas(rows, f.rows, w, i);
    var y := Row(x.key, Nulls(w) + x.vals);
    InRightOnlyRows(rows, f.rows, w, |f.names|, y);
    assert y.vals[w..w + |f.names|] == x.vals;
    assert HasBlock(y, fs, n, x.vals);
  }

  /** A left row joined with a right row it matches is a row of the full join. */
  lemma MatchedInJoin(l: seq<Row>, r: seq<Row>, wl: nat, wr: nat, j: nat, x: Row)
    requires j < |l| && x in r && Matches(l[j].key, x.key)
    ensures Row(l[j].key, l[j].vals + x.vals) in FullJoin(l, r, wl, wr)
  {
    var y := Row(l[j].key, l[j].vals + x.vals);
    JoinOneHas(l[j], r, wr, x);
    JoinOneInLeftRows(l, r, wr, j, y);
    InLeftRows(l, r, wl, wr, y);
  }

  /** Cells of frame `n` appended to a row of the first `n` frames sit at frame `n`'s offset. */
  lemma AppendedBlock(a: Row, x: Row, fs: seq<Frame>, n: nat)
    requires n < |fs| && |a.vals| == Offset(fs, n) && |x.vals| == |fs[n].names|
    ensures HasBlock(Row(a.key, a.vals + x.vals), fs, n, x.vals)
  {
    SliceAfter(a.vals, x.vals);
  }

  /** A row of frame `n` joins onto an earlier row it matches. */
  lemma KeptMatched(rows: seq<Row>, fs: seq<Frame>, n: nat, i: nat, j: nat)
    requires n < |fs| && Rectangular(fs[n]) && i < |fs[n].rows| && j < |rows|
    requires Matches(rows[j].key, fs[n].rows[i].key) && |rows[j].vals| == Offset(fs, n)
    ensures Carried(fs[n].rows[i], FullJoin(rows, fs[n].rows, Offset(fs, n), |fs[n].names|), fs, n)
  {
    var x, a := fs[n].rows[i], rows[j];
    MatchedInJoin(rows, fs[n].rows, Offset(fs, n), |fs[n].names|, j, x);
    AppendedBlock(a, x, fs, n);
    assert a.key == x.key;
  }

  /** Every row of frame `n` enters the join. */
  lemma KeptNew(rows: seq<Row>, fs: seq<Frame>, n: nat, i: nat)
    requires n < |fs| && Rectangular(fs[n]) && i < |fs[n].rows| && AllJoined(rows, fs, n)
    ensures Carried(fs[n].rows[i], FullJoin(rows, fs[n].rows, Offset(fs, n), |fs[n].names|), fs, n)
  {
    var ms := MatchesIn(fs[n].rows[i].key, rows);
    if ms == [] {
      KeptAlone(rows, fs, n, i);
    } else {
      assert ms[0] in ms && ms[0] in rows;
      var j :| 0 <= j < |rows| && rows[j] == ms[0];
      assert RowJoined(rows[j], fs, n);
      KeptMatched(rows, fs, n, i, j);
    }
  }

  /** Joining frame `n` on keeps every earlier frame's rows and brings in every row of frame `n`. */
  lemma JoinStepCovers(rows: seq<Row>, fs: seq<Frame>, n: nat)
    requires n < |fs| && Rectangular(fs[n])
    requires AllJoined(rows, fs, n) && Covered(rows, fs, n)
    ensures Covered(FullJoin(rows, fs[n].rows, Offset(fs, n), |fs[n].names|), fs, n + 1)
  {
    var out := FullJoin(rows, fs[n].rows, Offset(fs, n), |fs[n].names|);
    forall k, x | 0 <= k < n + 1 && x in fs[k].rows ensures Carried(x, out, fs, k) {
      if k < n {
        KeptLeft(rows, fs, n, k, x);
      } else {
        var i :| 0 <= i < |fs[n].rows| && fs[n].rows[i] == x;
        KeptNew(rows, fs, n, i);
      }
    }
  }

  lemma SortKeepsCovered(rows: seq<Row>, fs: seq<Frame>, n: nat)
    requires Covered(rows, fs, n)
    ensures Covered(SortRows(rows), fs, n)
  {
    forall k, x | 0 <= k < n && x in fs[k].rows ensures Carried(x, SortRows(rows), fs, k) {
      assert Carried(x, rows, fs, k);
      var y :| y in rows && y.key == x.key && HasBlock(y, fs, k, x.vals);
      assert y in multiset(rows);
      assert y in SortRows(rows) by {
        assert y in multiset(SortRows(rows));
      }
    }
  }

  lemma SortKeepsJoined(rows: seq<Row>, fs: seq<Frame>, n: nat)
    requires AllJoined(rows, fs, n)
    ensures AllJoined(SortRows(rows), fs, n)
  {
    forall row | row in SortRows(rows) ensures row in rows {
      assert row in multiset(SortRows(rows));
    }
  }

  lemma JoinNextKeys(base: Frame, f: Frame, next: nat)
    ensures KeySet(JoinNext(base, f, next).rows) == KeySet(base.rows) + KeySet(f.rows)
  {
    var g := Renamed(f, next);
    FullJoinKeys(base.rows, g.rows, |base.names|, |g.names|);
    SortKeepsKeys(FullJoin(base.rows, g.rows, |base.names|, |g.names|));
  }

  lemma JoinNextJoined(base: Frame, fs: seq<Frame>, n: nat)
    requires n < |fs| && Rectangular(fs[n])
    requires |base.names| == Offset(fs, n)
    requires AllJoined(base.rows, fs, n) && Covered(base.rows, fs, n)
    ensures |JoinNext(base, fs[n], Offset(fs, n)).names| == Offset(fs, n + 1)
    ensures AllJoined(JoinNext(base, fs[n], Offset(fs, n)).rows, fs, n + 1)
    ensures Covered(JoinNext(base, fs[n], Offset(fs, n)).rows, fs, n + 1)
  {
    OffsetStep(fs, n);
    var g := Renamed(fs[n], Offset(fs, n));
    JoinStep(base.rows, fs, n);
    SortKeepsJoined(FullJoin(base.rows, g.rows, |base.names|, |g.names|), fs, n + 1);
    JoinStepCovers(base.rows, fs, n);
    SortKeepsCovered(FullJoin(base.rows, g.rows, |base.names|, |g.names|), fs, n + 1);
  }

  lemma JoinNextNames(base: Frame, f: Frame, next: nat)
    ensures JoinNext(base, f, next).names == base.names + ValueNames(next, |f.names|)
  {
  }

  /** The first frame, renamed from `value_0`, is the join of the first frame alone. */
  lemma FirstFrame(fs: seq<Frame>)
    requires fs != []
    ensures Offset(fs, 1) == |fs[0].names|
    ensures JoinUpTo(fs, 1).names == ValueNames(0, Offset(fs, 1))
    ensures KeySet(JoinUpTo(fs, 1).rows) == UnionKeys(fs[..1])
  {
    assert fs[..0] == [];
    OffsetStep(fs, 0);
    assert fs[..1][..0] == [];
  }

  lemma FirstJoined(fs: seq<Frame>)
    requires fs != [] && Rectangular(fs[0])
    ensures |JoinUpTo(fs, 1).names| == Offset(fs, 1)
    ensures AllJoined(JoinUpTo(fs, 1).rows, fs, 1)
    ensures Covered(JoinUpTo(fs, 1).rows, fs, 1)
  {
    var f := fs[0];
    FirstFrame(fs);
    forall row | row in f.rows ensures RowJoined(row, fs, 1) {
      FirstRow(fs, row);
    }
    forall k, x | 0 <= k < 1 && x in fs[k].rows ensures Carried(x, f.rows, fs, k) {
      FirstRow(fs, x);
    }
  }

  lemma FirstRow(fs: seq<Frame>, row: Row)
    requires fs != [] && Rectangular(fs[0]) && row in fs[0].rows
    ensures RowJoined(row, fs, 1) && HasBlock(row, fs, 0, row.vals)
  {
    var f := fs[0];
    assert fs[..0] == [];
    OffsetStep(fs, 0);
    var i :| 0 <= i < |f.rows| && f.rows[i] == row;
    assert row.vals[0..|f.names|] == row.vals;
    assert BlockOk(row, fs, 0);
  }

  /** The loop names the value columns `value_0 …` up to the width of the frames joined so far. */
  lemma {:induction false} JoinUpToNames(fs: seq<Frame>, n: nat)
    requires 1 <= n <= |fs|
    ensures JoinUpTo(fs, n).names == ValueNames(0, Offset(fs, n))
  {
    if n == 1 {
      FirstFrame(fs);
    } else {
      JoinUpToNames(fs, n - 1);
      JoinNextNames(JoinUpTo(fs, n - 1), fs[n - 1], Offset(fs, n - 1));
      OffsetStep(fs, n - 1);
      ValueNamesSplit(0, Offset(fs, n - 1), |fs[n - 1].names|);
    }
  }

  lemma UnionKeysStep(fs: seq<Frame>, n: nat)
    requires 1 <= n <= |fs|
    ensures UnionKeys(fs[..n]) == UnionKeys(fs[..n - 1]) + KeySet(fs[n - 1].rows)
  {
    assert fs[..n][..n - 1] == fs[..n - 1];
  }

  /** The timestamps of `rows` are exactly the set `u`. */
  predicate KeysAre(rows: seq<Row>, u: set<Cell>) {
    && (forall row :: row in rows ==> row.key in u)
    && (forall k :: k in u ==> exists row :: row in rows && row.key == k)
  }

  lemma KeysAreKeySet(rows: seq<Row>, u: set<Cell>)
    ensures KeysAre(rows, u) <==> KeySet(rows) == u
  {
    forall k ensures k in KeySet(rows) <==> exists row :: row in rows && row.key == k {
      KeySetMember(rows, k);
    }
  }

  lemma JoinUpToKeysStep(fs: seq<Frame>, n: nat, u: set<Cell>)
    requires 2 <= n <= |fs|
    requires KeysAre(JoinUpTo(fs, n - 1).rows, u)
    ensures KeysAre(JoinUpTo(fs, n).rows, u + KeySet(fs[n - 1].rows))
  {
    var prev := JoinUpTo(fs, n - 1);
    JoinNextKeys(prev, fs[n - 1], Offset(fs, n - 1));
    KeysAreKeySet(prev.rows, u);
    KeysAreKeySet(JoinUpTo(fs, n).rows, u + KeySet(fs[n - 1].rows));
  }

  /** The loop's timestamps are the union of the timestamps of the frames joined so far. */
  lemma {:induction false} JoinUpToKeys(fs: seq<Frame>, n: nat)
    requires 1 <= n <= |fs|
    ensures KeysAre(JoinUpTo(fs, n).rows, UnionKeys(fs[..n]))
  {
    if n == 1 {
      FirstFrame(fs);
      KeysAreKeySet(JoinUpTo(fs, 1).rows, UnionKeys(fs[..1]));
    } else {
      JoinUpToKeys(fs, n - 1);
      JoinUpToKeysStep(fs, n, UnionKeys(fs[..n - 1]));
      UnionKeysStep(fs, n);
    }
  }

  /**
   * The loop's rows are exactly the full join of the frames joined so far: every row is made of
   * blocks traceable to those frames, and every row of those frames reappears in some row.
   */
  lemma {:induction false} JoinUpToJoined(fs: seq<Frame>, n: nat)
    requires 1 <= n <= |fs|
    requires forall f :: f in fs ==> Rectangular(f)
    ensures |JoinUpTo(fs, n).names| == Offset(fs, n)
    ensures AllJoined(JoinUpTo(fs, n).rows, fs, n)
    ensures Covered(JoinUpTo(fs, n).rows, fs, n)
  {
    assert fs[n - 1] in fs;
    if n == 1 {
      FirstJoined(fs);
    } else {
      JoinUpToJoined(fs, n - 1);
      JoinNextJoined(JoinUpTo(fs, n - 1), fs, n - 1);
    }
  }

  /**
   * A successful gather: value columns `value_0 … value_{K-1}` with K the sum of the kept frames'
   * value-column counts, rows sorted by timestamp, the timestamps exactly those of the kept frames,
   * in every row, kept frame j's cells sit at offset Offset(frames, j), copied from a row of frame j
   * with the same timestamp or all null when no row of frame j matches it, and every row of every
   * kept frame reappears in some row, its cells at its frame's offset.
   */
  lemma GatherShape(bodies: seq<Payload>)
    requires Gather(bodies).Ok?
    ensures Collect(bodies).Ok? && Collect(bodies).value != []
    ensures Gather(bodies).value.names == ValueNames(0, Width(Collect(bodies).value))
    ensures Sorted(Gather(bodies).value.rows)
    ensures KeySet(Gather(bodies).value.rows) == UnionKeys(Collect(bodies).value)
    ensures AllJoined(Gather(bodies).value.rows, Collect(bodies).value, |Collect(bodies).value|)
    ensures Covered(Gather(bodies).value.rows, Collect(bodies).value, |Collect(bodies).value|)
  {
    var fs := Collect(bodies).value;
    assert fs[..|fs|] == fs;
    JoinUpToNames(fs, |fs|);
    JoinUpToKeys(fs, |fs|);
    JoinUpToJoined(fs, |fs|);
    var b := JoinUpTo(fs, |fs|);
    KeysAreKeySet(b.rows, UnionKeys(fs));
    SortKeepsKeys(b.rows);
    SortKeepsJoined(b.rows, fs, |fs|);
    SortKeepsCovered(b.rows, fs, |fs|);
  }

  /** The gather fails exactly on: no buffers, a rejected buffer (the first), or only empty tables. */
  lemma GatherFailure(bodies: seq<Payload>)
    ensures Gather(bodies) == Err(NoBuffers) <==> bodies == []
    ensures Gather(bodies) == Err(AllEmpty) <==>
      bodies != [] && forall i :: 0 <= i < |bodies| ==> Classify(bodies[i]) == Skip
    ensures Gather(bodies).Ok? <==>
      && (forall i :: 0 <= i < |bodies| ==> !Classify(bodies[i]).Reject?)
      && exists i :: 0 <= i < |bodies| && Classify(bodies[i]).Keep?
  {
    CollectOkIff(bodies);
    if Collect(bodies).Err? {
      var i := CollectFirstError(bodies);
      assert Classify(bodies[i]).Reject?;
    } else {
      var fs := Collect(bodies).value;
      if exists i :: 0 <= i < |bodies| && Classify(bodies[i]).Keep? {
        var i :| 0 <= i < |bodies| && Classify(bodies[i]).Keep?;
        CollectKept(bodies, Classify(bodies[i]).frame);
      }
      if fs != [] {
        CollectKept(bodies, fs[0]);
      }
    }
  }
}
