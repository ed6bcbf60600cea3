/** The transform stage: the frame for `fct_launches` (launches inner-joined
    with their links rows) and the frames for `dim_rockets` and
    `dim_payloads`, each read from the raw tables with one SELECT. */
module TransformData {
  import opened Values
  import opened RawSchema
  import opened RawRows
  import opened RawLoad

  /** The outcome of one `pd.read_sql_query`: the rows it returned, or an
      exception raised while reading. */
  datatype Read<T> = Rows(rows: seq<T>) | ReadError

  /** A frame cell as pandas holds it after a SELECT: `Null` for `None` and
      `Val(v)` for any other Python value. A JSONB column is parsed on the
      way out, so the stored text `null` becomes `None`. */
  function Fetch(c: Cell): (f: Cell)
    ensures !f.JsonText?
    ensures f.Null? <==> Decode(c) == JNull
    ensures f.Val? ==> f.v == Decode(c)
  {
    Param(Decode(c))
  }

  /** `SELECT id, flight_number, name, date_utc, success` from the launches table. */
  datatype LaunchFacts = LaunchFacts(id: Cell, flightNumber: Cell, name: Cell, dateUtc: Cell, success: Cell)

  /** `SELECT launch_id, webcast, wikipedia` from the links table. */
  datatype LinkRef = LinkRef(launchId: Cell, webcast: Cell, wikipedia: Cell)

  /** A row of `fct_launches`: the launch columns, then the two links columns;
      `launch_id` is not among them. */
  datatype FactRow = FactRow(
    id: Cell, flightNumber: Cell, name: Cell, dateUtc: Cell, success: Cell,
    webcast: Cell, wikipedia: Cell)

  /** `SELECT id, cost_per_launch, first_flight, height, diameter, mass,
      payload_weights` from the rockets table. */
  datatype DimRocket = DimRocket(
    id: Cell, costPerLaunch: Cell, firstFlight: Cell,
    height: Cell, diameter: Cell, mass: Cell, payloadWeights: Cell)

  /** `SELECT id, name, type, mass_kg, orbit` from the payloads table. */
  datatype DimPayload = DimPayload(id: Cell, name: Cell, payloadType: Cell, massKg: Cell, orbit: Cell)

  function SelectLaunch(l: LaunchRow): LaunchFacts
  {
    LaunchFacts(Param(l.id), Fetch(l.flightNumber), Fetch(l.name), Fetch(l.dateUtc), Fetch(l.success))
  }

  function SelectLink(k: Keyed<LinksRow>): LinkRef
  {
    LinkRef(Param(k.launchId), Fetch(k.row.webcast), Fetch(k.row.wikipedia))
  }

  function SelectRocket(r: RocketRow): DimRocket
  {
    DimRocket(Param(r.id), Fetch(r.costPerLaunch), Fetch(r.firstFlight),
              Fetch(r.height), Fetch(r.diameter), Fetch(r.mass), Fetch(r.payloadWeights))
  }

  /** The links snapshot, in the order the rows are stored. */
  function LinksSnapshot(s: seq<Keyed<LinksRow>>): (r: seq<LinkRef>)
    ensures |r| == |s|
    ensures forall i :: 0 <= i < |s| ==> r[i] == SelectLink(s[i])
  {
    if s == [] then [] else LinksSnapshot(s[..|s| - 1]) + [SelectLink(s[|s| - 1])]
  }

  /** The fact row for a launch and one of its links rows. */
  function Combine(l: LaunchFacts, k: LinkRef): FactRow
  {
    FactRow(l.id, l.flightNumber, l.name, l.dateUtc, l.success, k.webcast, k.wikipedia)
  }

  /** The links rows whose `launch_id` equals the launch's `id`, in links
      order, each combined with the launch. */
  function Matches(l: LaunchFacts, links: seq<LinkRef>): seq<FactRow>
  {
    if links == [] then []
    else
      var last := links[|links| - 1];
      Matches(l, links[..|links| - 1]) + (if last.launchId == l.id then [Combine(l, last)] else [])
  }

  /** `pd.merge(launches, links, left_on="id", right_on="launch_id",
      how="inner")` followed by dropping `launch_id`: for each launch in
      order, its matching links rows in order. */
  function InnerJoin(launches: seq<LaunchFacts>, links: seq<LinkRef>): seq<FactRow>
  {
    if launches == [] then []
    else InnerJoin(launches[..|launches| - 1], links) + Matches(launches[|launches| - 1], links)
  }

  lemma {:induction false} MatchesMember(l: LaunchFacts, links: seq<LinkRef>, f: FactRow)
    ensures f in Matches(l, links) <==>
      exists j :: 0 <= j < |links| && links[j].launchId == l.id && f == Combine(l, links[j])
  {
    if links != [] {
      var init := links[..|links| - 1];
      MatchesMember(l, init, f);
      if exists j :: 0 <= j < |links| && links[j].launchId == l.id && f == Combine(l, links[j]) {
        var j :| 0 <= j < |links| && links[j].launchId == l.id && f == Combine(l, links[j]);
        if j < |links| - 1 {
          assert init[j] == links[j];
        }
      }
      if f in Matches(l, init) {
        var j :| 0 <= j < |init| && init[j].launchId == l.id && f == Combine(l, init[j]);
        assert links[j] == init[j];
      }
    }
  }

  /** A fact row exists exactly for each pair of a launch and a links row
      with `launch.id == links.launch_id`: a launch without links rows and a
      links row without a launch contribute nothing. */
  lemma {:induction false} InnerJoinMember(launches: seq<LaunchFacts>, links: seq<LinkRef>, f: FactRow)
    ensures f in InnerJoin(launches, links) <==>
      exists i, j :: 0 <= i < |launches| && 0 <= j < |links| &&
        launches[i].id == links[j].launchId && f == Combine(launches[i], links[j])
  {
    if launches != [] {
      var init := launches[..|launches| - 1];
      var last := launches[|launches| - 1];
      InnerJoinMember(init, links, f);
      MatchesMember(last, links, f);
      if exists i, j :: 0 <= i < |launches| && 0 <= j < |links| &&
          launches[i].id == links[j].launchId && f == Combine(launches[i], links[j]) {
        var i, j :| 0 <= i < |launches| && 0 <= j < |links| &&
          launches[i].id == links[j].launchId && f == Combine(launches[i], links[j]);
        if i < |launches| - 1 {
          assert init[i] == launches[i];
        }
      }
      if f in InnerJoin(init, links) {
        var i, j :| 0 <= i < |init| && 0 <= j < |links| &&
          init[i].id == links[j].launchId && f == Combine(init[i], links[j]);
        assert launches[i] == init[i];
      }
    }
  }

  /** Joining a launch with the links snapshot gives one fact row per links
      row stored for that launch, in stored order. */
  lemma {:induction false} MatchesSnapshot(row: LaunchRow, s: seq<Keyed<LinksRow>>)
    ensures Matches(SelectLaunch(row), LinksSnapshot(s)) ==
      seq(|ForLaunch(s, row.id)|, i requires 0 <= i < |ForLaunch(s, row.id)| =>
        Combine(SelectLaunch(row), SelectLink(Keyed(row.id, ForLaunch(s, row.id)[i]))))
  {
    if s != [] {
      var init := s[..|s| - 1];
      assert LinksSnapshot(s)[..|s| - 1] == LinksSnapshot(init);
      MatchesSnapshot(row, init);
      assert Param(s[|s| - 1].launchId) == Param(row.id) <==> s[|s| - 1].launchId == row.id;
    }
  }

  /** After a launch has been written by the raw load, the fact join of its
      launch row with the links table yields exactly one row, carrying the
      links columns derived from the current record. */
  lemma WrittenLaunchHasOneFactRow(t: RawTables, id: Json, row: LaunchRow, ch: Children)
    requires row.id == id
    ensures var u := ReplaceLaunch(t, id, row, ch);
      Matches(SelectLaunch(u.launches[id]), LinksSnapshot(u.links)) ==
        [Combine(SelectLaunch(row), SelectLink(Keyed(id, ch.links)))]
  {
    var u := ReplaceLaunch(t, id, row, ch);
    ReplaceRowsSpec(t.links, id, [ch.links], id);
    MatchesSnapshot(row, u.links);
  }

  /** `transformed_fact_data`: `None` when a read raises or either snapshot
      is empty; the links table is not consulted when launches is empty. */
  function FactData(launches: Read<LaunchFacts>, links: Read<LinkRef>): (r: Option<seq<FactRow>>)
    ensures launches.ReadError? || launches.rows == [] ==> r.None?
    ensures r.Some? <==> launches.Rows? && launches.rows != [] && links.Rows? && links.rows != []
    ensures r.Some? ==> r.value == InnerJoin(launches.rows, links.rows)
  {
    if launches.ReadError? || launches.rows == [] then None
    else if links.ReadError? || links.rows == [] then None
    else Some(InnerJoin(launches.rows, links.rows))
  }

  /** The pair returned by `transformed_dimension_data`. */
  datatype Dimensions = Dimensions(rockets: Option<seq<DimRocket>>, payloads: Option<seq<DimPayload>>)

  /** `transformed_dimension_data`: `(None, None)` when the rockets read
      raises or is empty, `(rockets, None)` when payloads is empty, and both
      frames otherwise; a payloads read that raises also discards the rockets
      frame already read. */
  function DimensionData(rockets: Read<DimRocket>, payloads: Read<DimPayload>): (d: Dimensions)
    ensures rockets.ReadError? || rockets.rows == [] || payloads.ReadError? ==> d == Dimensions(None, None)
    ensures d.payloads.Some? ==> d.rockets.Some?
    ensures d.rockets.Some? <==> rockets.Rows? && rockets.rows != [] && payloads.Rows?
    ensures d.rockets.Some? ==> d.rockets.value == rockets.rows
    ensures d.payloads.Some? <==> d.rockets.Some? && payloads.rows != []
    ensures d.payloads.Some? ==> d.payloads.value == payloads.rows
  {
    if rockets.ReadError? || rockets.rows == [] then Dimensions(None, None)
    else if payloads.ReadError? then Dimensions(None, None)
    else if payloads.rows == [] then Dimensions(Some(rockets.rows), None)
    else Dimensions(Some(rockets.rows), Some(payloads.rows))
  }
}
