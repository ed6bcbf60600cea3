/** The raw relational schema `spacex_data`: three parent tables keyed by the
    source identifier and eight child tables whose rows carry a `launch_id`.
    Parent tables are maps (the primary key makes identifiers unique); child
    tables have no key and are sequences of rows. */
module RawSchema {
  import opened Values

  /** `raw_spacex_launches_data`; `id` is the primary key. */
  datatype LaunchRow = LaunchRow(
    id: Json, flightNumber: Cell, name: Cell, dateUtc: Cell, dateUnix: Cell,
    dateLocal: Cell, datePrecision: Cell, staticFireDateUtc: Cell,
    staticFireDateUnix: Cell, net: Cell, window: Cell, rocket: Cell,
    success: Cell, details: Cell, launchpad: Cell, autoUpdate: Cell,
    tbd: Cell, launchLibraryId: Cell, upcoming: Cell)

  /** `raw_spacex_rockets_data`; the four size columns are JSONB. */
  datatype RocketRow = RocketRow(
    id: Json, name: Cell, rocketType: Cell, active: Cell, stages: Cell,
    boosters: Cell, costPerLaunch: Cell, successRatePct: Cell,
    firstFlight: Cell, country: Cell, company: Cell, height: Cell,
    diameter: Cell, mass: Cell, payloadWeights: Cell, flickrImages: Cell,
    wikipedia: Cell, description: Cell)

  /** `raw_spacex_payloads_data`. */
  datatype PayloadRow = PayloadRow(
    id: Json, name: Cell, payloadType: Cell, reused: Cell, launch: Cell,
    customers: Cell, noradIds: Cell, nationalities: Cell, manufacturers: Cell,
    massKg: Cell, massLbs: Cell, orbit: Cell, referenceSystem: Cell,
    regime: Cell, longitude: Cell, semiMajorAxisKm: Cell, eccentricity: Cell,
    periapsisKm: Cell, apoapsisKm: Cell, inclinationDeg: Cell,
    periodMin: Cell, lifespanYears: Cell)

  datatype FairingsRow = FairingsRow(reused: Cell, recoveryAttempt: Cell, recovered: Cell)

  datatype LinksRow = LinksRow(
    patchSmall: Cell, patchLarge: Cell, webcast: Cell, youtubeId: Cell,
    article: Cell, wikipedia: Cell, redditCampaign: Cell, redditLaunch: Cell,
    redditMedia: Cell, redditRecovery: Cell)

  datatype FailureRow = FailureRow(time: Cell, altitude: Cell, reason: Cell)

  datatype CoreRow = CoreRow(
    core: Cell, flight: Cell, gridfins: Cell, legs: Cell, reused: Cell,
    landingAttempt: Cell, landingSuccess: Cell, landingType: Cell, landpad: Cell)

  /** A child row: the columns after `launch_id`, tagged with `launch_id`. */
  datatype Keyed<R> = Keyed(launchId: Json, row: R)

  /** The four association tables, whose rows are a (launch_id, other id) pair. */
  datatype AssocTable = LaunchPayloads | Crew | Ships | Capsules

  /** The child tables, named in the order the writer clears them. */
  datatype ChildTable = Fairings | Links | Failures | Cores | Assoc(table: AssocTable)

  const ChildTables: seq<ChildTable> :=
    [Fairings, Links, Failures, Cores,
     Assoc(LaunchPayloads), Assoc(Crew), Assoc(Ships), Assoc(Capsules)]

  datatype RawTables = RawTables(
    launches: map<Json, LaunchRow>,
    rockets: map<Json, RocketRow>,
    payloads: map<Json, PayloadRow>,
    fairings: seq<Keyed<FairingsRow>>,
    links: seq<Keyed<LinksRow>>,
    failures: seq<Keyed<FailureRow>>,
    cores: seq<Keyed<CoreRow>>,
    launchPayloads: seq<Keyed<Cell>>,
    crew: seq<Keyed<Cell>>,
    ships: seq<Keyed<Cell>>,
    capsules: seq<Keyed<Cell>>)

  /** Every parent row sits under its own identifier, and no identifier is
      NULL (a primary key is NOT NULL). */
  ghost predicate ParentsValid(t: RawTables)
  {
    && (forall k :: k in t.launches ==> k != JNull && t.launches[k].id == k)
    && (forall k :: k in t.rockets ==> k != JNull && t.rockets[k].id == k)
    && (forall k :: k in t.payloads ==> k != JNull && t.payloads[k].id == k)
  }

  function AssocRows(t: RawTables, a: AssocTable): seq<Keyed<Cell>>
  {
    match a
    case LaunchPayloads => t.launchPayloads
    case Crew => t.crew
    case Ships => t.ships
    case Capsules => t.capsules
  }

  function WithAssocRows(t: RawTables, a: AssocTable, rows: seq<Keyed<Cell>>): (u: RawTables)
    ensures AssocRows(u, a) == rows
    ensures forall b :: b != a ==> AssocRows(u, b) == AssocRows(t, b)
    ensures u.launches == t.launches && u.rockets == t.rockets && u.payloads == t.payloads
    ensures u.fairings == t.fairings && u.links == t.links
    ensures u.failures == t.failures && u.cores == t.cores
  {
    match a
    case LaunchPayloads => t.(launchPayloads := rows)
    case Crew => t.(crew := rows)
    case Ships => t.(ships := rows)
    case Capsules => t.(capsules := rows)
  }

  /** `SELECT ... WHERE launch_id = id`: the rows of one launch, in table order. */
  function ForLaunch<R>(s: seq<Keyed<R>>, id: Json): seq<R>
  {
    if s == [] then []
    else ForLaunch(s[..|s| - 1], id)
         + (if s[|s| - 1].launchId == id then [s[|s| - 1].row] else [])
  }

  /** `DELETE ... WHERE launch_id = id`. */
  function Without<R>(s: seq<Keyed<R>>, id: Json): seq<Keyed<R>>
  {
    if s == [] then []
    else Without(s[..|s| - 1], id)
         + (if s[|s| - 1].launchId == id then [] else [s[|s| - 1]])
  }

  /** Rows written for one launch, each tagged with its `launch_id`. */
  function Tag<R>(id: Json, rows: seq<R>): (r: seq<Keyed<R>>)
    ensures |r| == |rows|
    ensures forall i :: 0 <= i < |r| ==> r[i] == Keyed(id, rows[i])
  {
    if rows == [] then []
    else Tag(id, rows[..|rows| - 1]) + [Keyed(id, rows[|rows| - 1])]
  }

  lemma TagAppend<R>(id: Json, rows: seq<R>, x: R)
    ensures Tag(id, rows + [x]) == Tag(id, rows) + [Keyed(id, x)]
  {
    assert (rows + [x])[..|rows|] == rows;
  }

  /** Inserting one more row for a launch appends its tagged row to the table. */
  lemma AppendTagged<R>(table: seq<Keyed<R>>, id: Json, rows: seq<R>, x: R)
    ensures table + Tag(id, rows + [x]) == (table + Tag(id, rows)) + [Keyed(id, x)]
  {
    TagAppend(id, rows, x);
    assert table + (Tag(id, rows) + [Keyed(id, x)]) == (table + Tag(id, rows)) + [Keyed(id, x)];
  }

  lemma {:induction false} ForLaunchAppend<R>(s: seq<Keyed<R>>, u: seq<Keyed<R>>, id: Json)
    ensures ForLaunch(s + u, id) == ForLaunch(s, id) + ForLaunch(u, id)
    decreases |u|
  {
    if u == [] {
      assert s + u == s;
    } else {
      assert (s + u)[..|s + u| - 1] == s + u[..|u| - 1];
      ForLaunchAppend(s, u[..|u| - 1], id);
    }
  }

  lemma {:induction false} ForLaunchWithout<R>(s: seq<Keyed<R>>, id: Json, other: Json)
    ensures ForLaunch(Without(s, id), id) == []
    ensures other != id ==> ForLaunch(Without(s, id), other) == ForLaunch(s, other)
    decreases |s|
  {
    if s != [] {
      var init := s[..|s| - 1];
      var last := s[|s| - 1];
      ForLaunchWithout(init, id, other);
      var tail: seq<Keyed<R>> := if last.launchId == id then [] else [last];
      ForLaunchAppend(Without(init, id), tail, id);
      ForLaunchAppend(Without(init, id), tail, other);
      assert tail == [] || tail[..0] == [];
    }
  }

  lemma {:induction false} ForLaunchTag<R>(rows: seq<R>, id: Json, other: Json)
    ensures ForLaunch(Tag(id, rows), id) == rows
    ensures other != id ==> ForLaunch(Tag(id, rows), other) == []
    decreases |rows|
  {
    if rows != [] {
      var init := rows[..|rows| - 1];
      ForLaunchTag(init, id, other);
      ForLaunchAppend(Tag(id, init), [Keyed(id, rows[|rows| - 1])], id);
      ForLaunchAppend(Tag(id, init), [Keyed(id, rows[|rows| - 1])], other);
      assert [Keyed(id, rows[|rows| - 1])][..0] == [];
      assert init + [rows[|rows| - 1]] == rows;
    }
  }

  /** Delete-then-insert of one launch's rows in one child table: afterwards
      the launch has exactly the new rows, and every other launch keeps its own. */
  function ReplaceRows<R>(s: seq<Keyed<R>>, id: Json, rows: seq<R>): seq<Keyed<R>>
  {
    Without(s, id) + Tag(id, rows)
  }

  lemma ReplaceRowsSpec<R>(s: seq<Keyed<R>>, id: Json, rows: seq<R>, other: Json)
    ensures ForLaunch(ReplaceRows(s, id, rows), id) == rows
    ensures other != id ==> ForLaunch(ReplaceRows(s, id, rows), other) == ForLaunch(s, other)
  {
    ForLaunchAppend(Without(s, id), Tag(id, rows), id);
    ForLaunchAppend(Without(s, id), Tag(id, rows), other);
    ForLaunchWithout(s, id, other);
    ForLaunchTag(rows, id, other);
  }

  /** `DELETE FROM spacex_data.<table> WHERE launch_id = id`. */
  function ClearTable(t: RawTables, k: ChildTable, id: Json): RawTables
  {
    match k
    case Fairings => t.(fairings := Without(t.fairings, id))
    case Links => t.(links := Without(t.links, id))
    case Failures => t.(failures := Without(t.failures, id))
    case Cores => t.(cores := Without(t.cores, id))
    case Assoc(LaunchPayloads) => t.(launchPayloads := Without(t.launchPayloads, id))
    case Assoc(Crew) => t.(crew := Without(t.crew, id))
    case Assoc(Ships) => t.(ships := Without(t.ships, id))
    case Assoc(Capsules) => t.(capsules := Without(t.capsules, id))
  }

  /** The loop `for table in child_tables: DELETE ... WHERE launch_id = id`
      after its first `n` iterations. */
  function ClearFirst(t: RawTables, id: Json, n: nat): RawTables
    requires n <= |ChildTables|
  {
    if n == 0 then t else ClearTable(ClearFirst(t, id, n - 1), ChildTables[n - 1], id)
  }

  /** `t` with every row of launch `id` deleted from all eight child tables. */
  function ClearAll(t: RawTables, id: Json): RawTables
  {
    t.(fairings := Without(t.fairings, id), links := Without(t.links, id),
       failures := Without(t.failures, id), cores := Without(t.cores, id),
       launchPayloads := Without(t.launchPayloads, id), crew := Without(t.crew, id),
       ships := Without(t.ships, id), capsules := Without(t.capsules, id))
  }

  /** The delete loop clears exactly the launch's child rows, in every child
      table, and changes no parent table. */
  lemma ClearFirstAll(t: RawTables, id: Json)
    ensures ClearFirst(t, id, |ChildTables|) == ClearAll(t, id)
  {
    assert ClearFirst(t, id, 0) == t;
    assert ClearFirst(t, id, 1) == ClearTable(ClearFirst(t, id, 0), Fairings, id);
    assert ClearFirst(t, id, 2) == ClearTable(ClearFirst(t, id, 1), Links, id);
    assert ClearFirst(t, id, 3) == ClearTable(ClearFirst(t, id, 2), Failures, id);
    assert ClearFirst(t, id, 4) == ClearTable(ClearFirst(t, id, 3), Cores, id);
    assert ClearFirst(t, id, 5) == ClearTable(ClearFirst(t, id, 4), Assoc(LaunchPayloads), id);
    assert ClearFirst(t, id, 6) == ClearTable(ClearFirst(t, id, 5), Assoc(Crew), id);
    assert ClearFirst(t, id, 7) == ClearTable(ClearFirst(t, id, 6), Assoc(Ships), id);
    assert ClearFirst(t, id, 8) == ClearTable(ClearFirst(t, id, 7), Assoc(Capsules), id);
  }
}
