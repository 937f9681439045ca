/** The coordinate table: download the KOI table once, drop rows without a
    sky position, derive X/Y/Z, keep six columns, and serve its first rows. */
module KoiCoordinates {
  import opened Outcomes
  import opened Wire
  import opened Python
  import opened Sky
  import Seqs

  /** A DataFrame: its column names and its rows, each row keyed by column. */
  datatype Frame = Frame(columns: seq<string>, rows: seq<Object>)

  /** `pd.DataFrame()`, what a failed download yields. */
  const EmptyFrame := Frame([], [])

  /** The columns of the result, in order. */
  const ResultColumns: seq<string> := ["kepoi_name", "ra", "dec", "X", "Y", "Z"]

  /** `DataFrame.empty`: no rows or no columns. */
  predicate IsEmpty(f: Frame)
  {
    |f.rows| == 0 || |f.columns| == 0
  }

  /** The row survives `dropna(subset=['ra', 'dec'])`. */
  predicate HasPosition(row: Object)
  {
    Get(row, "ra") != Null && Get(row, "dec") != Null
  }

  /** The surviving row's position is numeric, so the trigonometry applies. */
  predicate NumericPosition(row: Object)
  {
    Get(row, "ra").Num? && Get(row, "dec").Num?
  }

  /** The keys of every result row. */
  const ResultKeys: set<string> := {"kepoi_name", "ra", "dec", "X", "Y", "Z"}

  /** The keys are exactly the result columns, so the two cannot drift apart. */
  lemma ResultKeysAreColumns()
    ensures ResultKeys == set c | c in ResultColumns
  {
  }

  /** A row of the result: exactly the six columns, with a numeric position. */
  predicate WellShaped(row: Object)
  {
    row.Keys == ResultKeys && Get(row, "ra").Num? && Get(row, "dec").Num?
  }

  /** One result row: name, position and derived cartesian point. */
  function ResultRow(t: Trig, row: Object): (out: Object)
    requires NumericPosition(row)
    ensures WellShaped(out)
    ensures out["kepoi_name"] == Get(row, "kepoi_name")
    ensures out["ra"] == Get(row, "ra") && out["dec"] == Get(row, "dec")
    ensures var p := Cartesian(t, Get(row, "ra").n, Get(row, "dec").n);
      out["X"] == Num(p.x) && out["Y"] == Num(p.y) && out["Z"] == Num(p.z)
  {
    var p := Cartesian(t, Get(row, "ra").n, Get(row, "dec").n);
    map["kepoi_name" := Get(row, "kepoi_name"), "ra" := Get(row, "ra"), "dec" := Get(row, "dec"),
        "X" := Num(p.x), "Y" := Num(p.y), "Z" := Num(p.z)]
  }

  /** The result rows for rows that all have a numeric position, in order. */
  function ResultRows(t: Trig, rows: seq<Object>): (out: seq<Object>)
    requires forall row :: row in rows ==> NumericPosition(row)
    ensures |out| == |rows|
    ensures forall i :: 0 <= i < |rows| ==> out[i] == ResultRow(t, rows[i])
  {
    seq(|rows|, i requires 0 <= i < |rows| => ResultRow(t, rows[i]))
  }

  /** The three columns the computation reads are present. */
  predicate HasColumns(df: Frame)
  {
    "ra" in df.columns && "dec" in df.columns && "kepoi_name" in df.columns
  }

  /** Every row that survives `dropna` has a numeric position. */
  predicate PositionsNumeric(rows: seq<Object>)
  {
    forall row :: row in rows && HasPosition(row) ==> NumericPosition(row)
  }

  /** `calculate_koi_coordinates` for one download outcome. A failed download
      answers the empty frame; a table lacking `ra` or `dec` makes `dropna`
      raise KeyError; a non-numeric position makes `deg2rad` raise TypeError;
      a table lacking `kepoi_name` makes the column selection raise KeyError. */
  function CalculateKoiCoordinates(download: Fetched<Frame>, t: Trig): (r: Result<Frame, Fault>)
    ensures download.Err? ==> r == Ok(EmptyFrame)
    ensures download.Ok? ==>
      (r.Ok? <==> HasColumns(download.value) && PositionsNumeric(download.value.rows))
    ensures download.Ok? && r.Ok? ==> r.value.columns == ResultColumns
    ensures r.Ok? ==> forall row :: row in r.value.rows ==> WellShaped(row)
    ensures download.Ok? && r.Ok? ==>
      r.value.rows == ResultRows(t, Seqs.Filter(download.value.rows, HasPosition))
  {
    match download
    case Err(_) => Ok(EmptyFrame)
    case Ok(df) =>
      if "ra" !in df.columns || "dec" !in df.columns then Err(KeyError)
      else
        var kept := Seqs.Filter(df.rows, HasPosition);
        if exists row :: row in kept && !NumericPosition(row) then Err(TypeError)
        else if "kepoi_name" !in df.columns then Err(KeyError)
        else Ok(Frame(ResultColumns, ResultRows(t, kept)))
  }

  /** Exactly the rows with a position survive: none is lost and none is
      invented, and there are never more rows than were downloaded. */
  lemma CoordinateRowsExact(df: Frame, t: Trig)
    requires CalculateKoiCoordinates(Ok(df), t).Ok?
    ensures var out := CalculateKoiCoordinates(Ok(df), t).value.rows;
      && |out| <= |df.rows|
      && (forall row :: row in df.rows && HasPosition(row) ==> ResultRow(t, row) in out)
      && (forall o :: o in out ==> exists row :: row in df.rows && HasPosition(row) && o == ResultRow(t, row))
  {
    var kept := Seqs.Filter(df.rows, HasPosition);
    var out := CalculateKoiCoordinates(Ok(df), t).value.rows;
    forall row | row in df.rows && HasPosition(row)
      ensures ResultRow(t, row) in out
    {
      var i :| 0 <= i < |kept| && kept[i] == row;
      assert out[i] == ResultRow(t, row);
    }
    forall o | o in out
      ensures exists row :: row in df.rows && HasPosition(row) && o == ResultRow(t, row)
    {
      var i :| 0 <= i < |out| && out[i] == o;
      assert kept[i] in kept;
    }
  }

  /** The rows of the result keep their relative order: the result for a
      table split in two is the result for the first part followed by the
      result for the second. */
  lemma CoordinateRowsKeepOrder(columns: seq<string>, a: seq<Object>, b: seq<Object>, t: Trig)
    requires CalculateKoiCoordinates(Ok(Frame(columns, a + b)), t).Ok?
    ensures CalculateKoiCoordinates(Ok(Frame(columns, a)), t).Ok?
    ensures CalculateKoiCoordinates(Ok(Frame(columns, b)), t).Ok?
    ensures CalculateKoiCoordinates(Ok(Frame(columns, a + b)), t).value.rows ==
      CalculateKoiCoordinates(Ok(Frame(columns, a)), t).value.rows
      + CalculateKoiCoordinates(Ok(Frame(columns, b)), t).value.rows
  {
    assert PositionsNumeric(a + b);
    assert forall row :: row in a ==> row in a + b;
    assert forall row :: row in b ==> row in a + b;
    assert PositionsNumeric(a) && PositionsNumeric(b);
    var ka, kb := Seqs.Filter(a, HasPosition), Seqs.Filter(b, HasPosition);
    Seqs.FilterConcat(a, b, HasPosition);
    ResultRowsConcat(t, ka, kb);
  }

  /** The result rows of two row lists side by side. */
  lemma ResultRowsConcat(t: Trig, a: seq<Object>, b: seq<Object>)
    requires forall row :: row in a + b ==> NumericPosition(row)
    ensures forall row :: row in a ==> NumericPosition(row)
    ensures forall row :: row in b ==> NumericPosition(row)
    ensures ResultRows(t, a + b) == ResultRows(t, a) + ResultRows(t, b)
  {
    assert forall row :: row in a ==> row in a + b;
    assert forall row :: row in b ==> row in a + b;
  }

  /** The state `lru_cache(maxsize=1)` keeps for the zero-argument function:
      the one remembered return value, if any. */
  datatype Memo = Memo(cached: Option<Frame>)

  /** One call of the cached function. A remembered value is returned without
      downloading; otherwise the function runs on this call's download and a
      normal return (the empty frame of a failed download included) is
      remembered, while a raised exception is not. */
  function CachedCoordinates(m: Memo, download: Fetched<Frame>, t: Trig): (out: (Result<Frame, Fault>, Memo))
    ensures m.cached.Some? ==> out == (Ok(m.cached.value), m)
    ensures m.cached.None? ==> out.0 == CalculateKoiCoordinates(download, t)
    ensures out.0.Ok? ==> out.1 == Memo(Some(out.0.value))
    ensures out.0.Err? ==> out.1 == m
  {
    match m.cached
    case Some(f) => (Ok(f), m)
    case None =>
      var r := CalculateKoiCoordinates(download, t);
      match r
      case Ok(f) => (r, Memo(Some(f)))
      case Err(_) => (r, m)
  }

  /** A table row whose X, Y and Z are the point derived from its own `ra`
      and `dec`. */
  predicate Derived(t: Trig, row: Object)
  {
    && WellShaped(row)
    && var p := Cartesian(t, Get(row, "ra").n, Get(row, "dec").n);
       Get(row, "X") == Num(p.x) && Get(row, "Y") == Num(p.y) && Get(row, "Z") == Num(p.z)
  }

  /** The cache only ever holds a table of derived rows. */
  predicate MemoValid(m: Memo, t: Trig)
  {
    m.cached.Some? ==> forall row :: row in m.cached.value.rows ==> Derived(t, row)
  }

  /** Every row `calculate_koi_coordinates` returns is derived. */
  lemma TableRowsDerived(download: Fetched<Frame>, t: Trig)
    requires CalculateKoiCoordinates(download, t).Ok?
    ensures forall row :: row in CalculateKoiCoordinates(download, t).value.rows ==> Derived(t, row)
  {
    if download.Ok? {
      var kept := Seqs.Filter(download.value.rows, HasPosition);
      var rows := CalculateKoiCoordinates(download, t).value.rows;
      forall row | row in rows ensures Derived(t, row) {
        var i :| 0 <= i < |rows| && rows[i] == row;
        assert kept[i] in kept;
        assert row == ResultRow(t, kept[i]);
      }
    }
  }

  /** Every call keeps the cache valid, and every table a call answers, from
      the cache or from this call's download, holds only derived rows. */
  lemma MemoStaysValid(m: Memo, download: Fetched<Frame>, t: Trig)
    requires MemoValid(m, t)
    ensures MemoValid(CachedCoordinates(m, download, t).1, t)
    ensures var r := CachedCoordinates(m, download, t).0;
      r.Ok? ==> forall row :: row in r.value.rows ==> Derived(t, row)
  {
    if m.cached.None? && CalculateKoiCoordinates(download, t).Ok? {
      TableRowsDerived(download, t);
    }
  }

  /** The outcomes of consecutive calls, the i-th call seeing `downloads[i]`
      should it download at all. */
  function Replay(m: Memo, downloads: seq<Fetched<Frame>>, t: Trig): (outs: seq<Result<Frame, Fault>>)
    ensures |outs| == |downloads|
    decreases |downloads|
  {
    if downloads == [] then []
    else
      var (r, m') := CachedCoordinates(m, downloads[0], t);
      [r] + Replay(m', downloads[1..], t)
  }

  /** Once a value is remembered, every later call answers it, whatever the
      network would have returned. */
  lemma {:induction false} RememberedIsFinal(f: Frame, downloads: seq<Fetched<Frame>>, t: Trig)
    ensures forall i :: 0 <= i < |downloads| ==> Replay(Memo(Some(f)), downloads, t)[i] == Ok(f)
  {
    if downloads != [] {
      RememberedIsFinal(f, downloads[1..], t);
      var outs := Replay(Memo(Some(f)), downloads, t);
      assert outs == [Ok(f)] + Replay(Memo(Some(f)), downloads[1..], t);
      forall i | 0 <= i < |downloads| ensures outs[i] == Ok(f) {
        if i > 0 { assert outs[i] == Replay(Memo(Some(f)), downloads[1..], t)[i - 1]; }
      }
    }
  }

  /** The first call that returns normally fixes the answer of every later
      call; until then every call raised. A failed download therefore fixes
      the empty frame for the rest of the process. */
  lemma {:induction false} FirstReturnIsFinal(downloads: seq<Fetched<Frame>>, t: Trig, i: nat)
    requires i < |downloads|
    requires Replay(Memo(None), downloads, t)[i].Ok?
    ensures forall j :: i <= j < |downloads| ==>
      Replay(Memo(None), downloads, t)[j] == Replay(Memo(None), downloads, t)[i]
    decreases i
  {
    var outs := Replay(Memo(None), downloads, t);
    var (r, m') := CachedCoordinates(Memo(None), downloads[0], t);
    assert outs == [r] + Replay(m', downloads[1..], t);
    if r.Ok? {
      RememberedIsFinal(r.value, downloads[1..], t);
      forall j | 0 <= j < |downloads| ensures outs[j] == r {
        if j > 0 { assert outs[j] == Replay(m', downloads[1..], t)[j - 1]; }
      }
    } else {
      assert m' == Memo(None);
      FirstReturnIsFinal(downloads[1..], t, i - 1);
      forall j | i <= j < |downloads| ensures outs[j] == outs[i] {
        assert outs[j] == Replay(m', downloads[1..], t)[j - 1];
      }
    }
  }

  /** A failed first download caches the empty frame: every call answers it. */
  lemma FailedDownloadIsRemembered(e: FetchError, downloads: seq<Fetched<Frame>>, t: Trig)
    ensures forall i :: 0 <= i < |downloads| + 1 ==> Replay(Memo(None), [Err(e)] + downloads, t)[i] == Ok(EmptyFrame)
  {
    var outs := Replay(Memo(None), [Err(e)] + downloads, t);
    assert outs[0] == Ok(EmptyFrame);
    FirstReturnIsFinal([Err(e)] + downloads, t, 0);
  }

  /** `get_koi_coordinates`: [] for an empty table, otherwise its first
      `limit` rows (Python slice semantics) as records. An exception raised
      by the computation propagates. */
  function GetKoiCoordinates(m: Memo, limit: int, download: Fetched<Frame>, t: Trig): (out: (Result<seq<Object>, Fault>, Memo))
    ensures out.1 == CachedCoordinates(m, download, t).1
    ensures var table := CachedCoordinates(m, download, t).0;
      && (table.Err? <==> out.0.Err?)
      && (table.Ok? && IsEmpty(table.value) ==> out.0 == Ok([]))
      && (table.Ok? && !IsEmpty(table.value) ==>
            && out.0.value <= table.value.rows
            && |out.0.value| == |Head(table.value.rows, limit)|)
  {
    var (table, m') := CachedCoordinates(m, download, t);
    match table
    case Err(e) => (Err(e), m')
    case Ok(df) => if IsEmpty(df) then (Ok([]), m') else (Ok(Head(df.rows, limit)), m')
  }
}
