/** The analytics load: each non-empty frame truncates and refills its table
    in `spacex_analytics`, the rockets frame after its JSON columns are
    serialised, and all three tables share one transaction. */
module LoadData {
  import opened Values
  import opened TransformData
  import RawRows

  /** `fct_launches`, `dim_rockets` and `dim_payloads`; in each, `id` is the
      primary key. */
  datatype AnalyticsTables = AnalyticsTables(
    fct: seq<FactRow>, rockets: seq<DimRocket>, payloads: seq<DimPayload>)

  function FactKey(r: FactRow): Cell { r.id }
  function RocketKey(r: DimRocket): Cell { r.id }
  function PayloadKey(r: DimPayload): Cell { r.id }

  /** The key column of a frame or table. */
  function Keys<R>(rows: seq<R>, key: R -> Cell): (ids: seq<Cell>)
    ensures |ids| == |rows|
    ensures forall i :: 0 <= i < |rows| ==> ids[i] == key(rows[i])
  {
    seq(|rows|, i requires 0 <= i < |rows| => key(rows[i]))
  }

  /** A primary key column: no NULL and no value twice. */
  predicate PrimaryKeyOk(ids: seq<Cell>)
  {
    && (forall i :: 0 <= i < |ids| ==> ids[i] != Null)
    && (forall i, j :: 0 <= i < j < |ids| ==> ids[i] != ids[j])
  }

  /** Every analytics table satisfies its primary key. */
  predicate KeysOk(t: AnalyticsTables)
  {
    && PrimaryKeyOk(Keys(t.fct, FactKey))
    && PrimaryKeyOk(Keys(t.rockets, RocketKey))
    && PrimaryKeyOk(Keys(t.payloads, PayloadKey))
  }

  /** `execute_values` into a just-truncated table: the rows go in one by
      one and the statement raises at the first NULL key or the first key
      already inserted. */
  method ExecuteValues(ids: seq<Cell>) returns (ok: bool)
    ensures ok <==> PrimaryKeyOk(ids)
  {
    var inserted: seq<Cell> := [];
    for i := 0 to |ids|
      invariant inserted == ids[..i]
      invariant PrimaryKeyOk(inserted)
    {
      if ids[i] == Null {
        return false;
      }
      if ids[i] in inserted {
        var j :| 0 <= j < i && inserted[j] == ids[i];
        assert ids[j] == ids[i];
        return false;
      }
      inserted := inserted + [ids[i]];
    }
    assert ids[..|ids|] == ids;
    return true;
  }

  /** The four JSONB columns of `dim_rockets`, in the order they are rewritten. */
  datatype BlobColumn = Height | Diameter | Mass | PayloadWeights

  const BlobColumns: seq<BlobColumn> := [Height, Diameter, Mass, PayloadWeights]

  /** `json.dumps(x) if x is not None else None` on one frame cell. */
  function DumpCell(c: Cell): (d: Cell)
    ensures d.Null? <==> c.Null?
    ensures !d.Val?
    ensures Decode(d) == Decode(c)
  {
    if c.Null? then Null else JsonText(Decode(c))
  }

  /** `rockets_df[col] = rockets_df[col].apply(...)` on one row. */
  function DumpColumn(r: DimRocket, col: BlobColumn): DimRocket
  {
    match col
    case Height => r.(height := DumpCell(r.height))
    case Diameter => r.(diameter := DumpCell(r.diameter))
    case Mass => r.(mass := DumpCell(r.mass))
    case PayloadWeights => r.(payloadWeights := DumpCell(r.payloadWeights))
  }

  /** A row after the first `n` columns of `BlobColumns` are rewritten. */
  function DumpedUpTo(r: DimRocket, n: nat): DimRocket
    requires n <= |BlobColumns|
  {
    if n == 0 then r else DumpColumn(DumpedUpTo(r, n - 1), BlobColumns[n - 1])
  }

  /** A rockets row as it is inserted: `id`, `cost_per_launch` and
      `first_flight` are kept, and each of the four JSON columns keeps `None`
      as `None` and stores every other value as its JSON text. */
  function Dumped(r: DimRocket): (d: DimRocket)
    ensures d.id == r.id && d.costPerLaunch == r.costPerLaunch && d.firstFlight == r.firstFlight
    ensures d.height == DumpCell(r.height) && d.diameter == DumpCell(r.diameter)
    ensures d.mass == DumpCell(r.mass) && d.payloadWeights == DumpCell(r.payloadWeights)
  {
    assert DumpedUpTo(r, 1) == r.(height := DumpCell(r.height));
    assert DumpedUpTo(r, 2) == DumpedUpTo(r, 1).(diameter := DumpCell(r.diameter));
    assert DumpedUpTo(r, 3) == DumpedUpTo(r, 2).(mass := DumpCell(r.mass));
    DumpedUpTo(r, |BlobColumns|)
  }

  /** Rewriting the JSON columns of a row that has been read back from the
      database leaves them as they were, except that a stored JSON `null`
      text becomes SQL NULL. */
  lemma DumpCellRoundTrip(c: Cell)
    requires !c.Val?
    ensures DumpCell(Fetch(c)) == (if c == JsonText(JNull) then Null else c)
  {
  }

  /** The rockets frame as it is inserted: row for row, the key and the two
      plain columns are unchanged and each JSON column is serialised. */
  function DumpFrame(rows: seq<DimRocket>): (d: seq<DimRocket>)
    ensures |d| == |rows|
    ensures forall i :: 0 <= i < |rows| ==>
      && d[i].id == rows[i].id && d[i].costPerLaunch == rows[i].costPerLaunch
      && d[i].firstFlight == rows[i].firstFlight
      && d[i].height == DumpCell(rows[i].height) && d[i].diameter == DumpCell(rows[i].diameter)
      && d[i].mass == DumpCell(rows[i].mass) && d[i].payloadWeights == DumpCell(rows[i].payloadWeights)
    ensures Keys(d, RocketKey) == Keys(rows, RocketKey)
  {
    seq(|rows|, i requires 0 <= i < |rows| => Dumped(rows[i]))
  }

  /** The four column rewrites of `insert_transformed_data_sql`, one column
      at a time over the whole frame. */
  method DumpBlobColumns(frame: seq<DimRocket>) returns (out: seq<DimRocket>)
    ensures out == DumpFrame(frame)
  {
    out := frame;
    for k := 0 to |BlobColumns|
      invariant |out| == |frame|
      invariant forall i :: 0 <= i < |frame| ==> out[i] == DumpedUpTo(frame[i], k)
    {
      var col := BlobColumns[k];
      out := seq(|out|, i requires 0 <= i < |out| => DumpColumn(out[i], col));
    }
  }

  /** Whether a frame is written: `frame is not None and not frame.empty`. */
  predicate Written<R>(frame: Option<seq<R>>)
  {
    frame.Some? && frame.value != []
  }

  /** One table's part of the load: a frame that is not written leaves the
      table alone; a written one replaces it, or raises (`None`) when its key
      column breaks the primary key. */
  function ReplaceTable<R>(table: seq<R>, frame: Option<seq<R>>, key: R -> Cell): (r: Option<seq<R>>)
    ensures !Written(frame) ==> r == Some(table)
    ensures Written(frame) ==> (r.Some? <==> PrimaryKeyOk(Keys(frame.value, key)))
    ensures Written(frame) && r.Some? ==> r.value == frame.value
  {
    if !Written(frame) then Some(table)
    else if PrimaryKeyOk(Keys(frame.value, key)) then Some(frame.value)
    else None
  }

  function DumpOption(rockets: Option<seq<DimRocket>>): Option<seq<DimRocket>>
  {
    if rockets.Some? then Some(DumpFrame(rockets.value)) else None
  }

  /** `insert_transformed_data_sql` on the tables `t`: the new contents, or
      `None` when some insert raises and everything is rolled back. */
  function LoadTables(t: AnalyticsTables, fct: Option<seq<FactRow>>,
                      rockets: Option<seq<DimRocket>>, payloads: Option<seq<DimPayload>>): Option<AnalyticsTables>
  {
    var f := ReplaceTable(t.fct, fct, FactKey);
    var r := ReplaceTable(t.rockets, DumpOption(rockets), RocketKey);
    var p := ReplaceTable(t.payloads, payloads, PayloadKey);
    if f.Some? && r.Some? && p.Some? then Some(AnalyticsTables(f.value, r.value, p.value)) else None
  }

  /** The load fails exactly when some written frame breaks its primary key. */
  lemma LoadFails(t: AnalyticsTables, fct: Option<seq<FactRow>>,
                  rockets: Option<seq<DimRocket>>, payloads: Option<seq<DimPayload>>)
    ensures LoadTables(t, fct, rockets, payloads).None? <==>
      || (Written(fct) && !PrimaryKeyOk(Keys(fct.value, FactKey)))
      || (Written(rockets) && !PrimaryKeyOk(Keys(rockets.value, RocketKey)))
      || (Written(payloads) && !PrimaryKeyOk(Keys(payloads.value, PayloadKey)))
  {
  }

  /** After a load, a table whose frame was absent or empty holds what it held
      before, and a table whose frame was written holds exactly that frame's
      rows (rockets with their JSON columns serialised). */
  lemma LoadReplaces(t: AnalyticsTables, fct: Option<seq<FactRow>>,
                     rockets: Option<seq<DimRocket>>, payloads: Option<seq<DimPayload>>)
    requires LoadTables(t, fct, rockets, payloads).Some?
    ensures var u := LoadTables(t, fct, rockets, payloads).value;
      && u.fct == (if Written(fct) then fct.value else t.fct)
      && u.rockets == (if Written(rockets) then DumpFrame(rockets.value) else t.rockets)
      && u.payloads == (if Written(payloads) then payloads.value else t.payloads)
  {
  }

  /** Loading the same frames again changes nothing. */
  lemma LoadIdempotent(t: AnalyticsTables, fct: Option<seq<FactRow>>,
                       rockets: Option<seq<DimRocket>>, payloads: Option<seq<DimPayload>>)
    requires LoadTables(t, fct, rockets, payloads).Some?
    ensures var u := LoadTables(t, fct, rockets, payloads).value;
      LoadTables(u, fct, rockets, payloads) == Some(u)
  {
  }

  /** A successful load keeps every table's primary key: no row is duplicated. */
  lemma LoadKeepsKeyed(t: AnalyticsTables, fct: Option<seq<FactRow>>,
                       rockets: Option<seq<DimRocket>>, payloads: Option<seq<DimPayload>>)
    requires KeysOk(t)
    requires LoadTables(t, fct, rockets, payloads).Some?
    ensures KeysOk(LoadTables(t, fct, rockets, payloads).value)
  {
  }

  /** The analytics database: what is committed and what the open
      transaction sees. */
  class AnalyticsDatabase {
    var committed: AnalyticsTables
    var pending: AnalyticsTables

    constructor(t: AnalyticsTables)
      ensures committed == t && pending == t
    {
      committed := t;
      pending := t;
    }

    method Commit()
      modifies this
      ensures committed == old(pending) && pending == old(pending)
    {
      committed := pending;
    }

    method Rollback()
      modifies this
      ensures committed == old(committed) && pending == old(committed)
    {
      pending := committed;
    }

    /** `insert_transformed_data_sql`: truncate and refill each written
        table, then one commit; on any failure, roll back and raise. */
    method InsertTransformedData(fct: Option<seq<FactRow>>, rockets: Option<seq<DimRocket>>,
                                 payloads: Option<seq<DimPayload>>) returns (raised: bool)
      modifies this
      ensures raised <==> LoadTables(old(pending), fct, rockets, payloads).None?
      ensures !raised ==> committed == pending == LoadTables(old(pending), fct, rockets, payloads).value
      ensures raised ==> committed == pending == old(committed)
    {
      ghost var t0 := pending;
      if Written(fct) {
        pending := pending.(fct := []);
        var ok := ExecuteValues(Keys(fct.value, FactKey));
        if !ok {
          Rollback();
          return true;
        }
        pending := pending.(fct := fct.value);
      }
      if Written(rockets) {
        pending := pending.(rockets := []);
        var frame := DumpBlobColumns(rockets.value);
        var ok := ExecuteValues(Keys(frame, RocketKey));
        if !ok {
          Rollback();
          return true;
        }
        pending := pending.(rockets := frame);
      }
      if Written(payloads) {
        pending := pending.(payloads := []);
        var ok := ExecuteValues(Keys(payloads.value, PayloadKey));
        if !ok {
          Rollback();
          return true;
        }
        pending := pending.(payloads := payloads.value);
      }
      assert pending == LoadTables(t0, fct, rockets, payloads).value;
      Commit();
      return false;
    }

    /** The tail of `main`: transform, then insert only when at least one
        frame is not `None`; an exception from the insert is caught there. */
    method TransformAndLoad(launches: Read<LaunchFacts>, links: Read<LinkRef>,
                            rockets: Read<DimRocket>, payloads: Read<DimPayload>)
      returns (inserted: bool, raised: bool)
      modifies this
      ensures var f := FactData(launches, links);
        var d := DimensionData(rockets, payloads);
        && (inserted <==> f.Some? || d.rockets.Some? || d.payloads.Some?)
        && (!inserted ==> !raised && committed == old(committed) && pending == old(pending))
        && (inserted ==> (raised <==> LoadTables(old(pending), f, d.rockets, d.payloads).None?))
        && (inserted && !raised ==>
              committed == pending == LoadTables(old(pending), f, d.rockets, d.payloads).value)
        && (raised ==> committed == pending == old(committed))
    {
      var fct := FactData(launches, links);
      var dims := DimensionData(rockets, payloads);
      if fct.Some? || dims.rockets.Some? || dims.payloads.Some? {
        raised := InsertTransformedData(fct, dims.rockets, dims.payloads);
        inserted := true;
      } else {
        inserted, raised := false, false;
      }
    }
  }

  /** When every read fails or comes back empty, `main` writes nothing. */
  lemma NothingReadNothingLoaded(launches: Read<LaunchFacts>, links: Read<LinkRef>,
                                 rockets: Read<DimRocket>, payloads: Read<DimPayload>)
    requires launches.ReadError? || launches.rows == []
    requires rockets.ReadError? || rockets.rows == []
    ensures FactData(launches, links).None?
    ensures DimensionData(rockets, payloads) == Dimensions(None, None)
  {
  }

  /** A rocket whose `height` was missing or `null` when it was fetched is
      stored in the raw table as the JSON text `null`, and in `dim_rockets` as
      SQL NULL; a present height reaches `dim_rockets` as the same JSON value. */
  lemma RocketHeightEndToEnd(r: Record)
    ensures Get(r, "height") == JNull ==> RawRows.RocketRowOf(r).height == JsonText(JNull)
    ensures Get(r, "height") == JNull ==> Dumped(SelectRocket(RawRows.RocketRowOf(r))).height == Null
    ensures Get(r, "height") != JNull ==>
      Dumped(SelectRocket(RawRows.RocketRowOf(r))).height == JsonText(r["height"])
  {
  }
}
