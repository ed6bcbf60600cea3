/** How one fetched record becomes raw rows: the parameter tuples of the
    upserts of `insert_rockets`, `insert_payloads` and `insert_launches`, and
    the flattening of a launch's nested parts into child-table rows. */
module RawRows {
  import opened Values
  import opened RawSchema

  /** The parameters of the rocket upsert; the four size attributes go
      through `json.dumps`, so a missing one is the JSON text `null`. */
  function RocketRowOf(r: Record): RocketRow
  {
    RocketRow(
      Get(r, "id"), Param(Get(r, "name")), Param(Get(r, "type")),
      Param(Get(r, "active")), Param(Get(r, "stages")), Param(Get(r, "boosters")),
      Param(Get(r, "cost_per_launch")), Param(Get(r, "success_rate_pct")),
      Param(Get(r, "first_flight")), Param(Get(r, "country")),
      Param(Get(r, "company")), Dumps(Get(r, "height")), Dumps(Get(r, "diameter")),
      Dumps(Get(r, "mass")), Dumps(Get(r, "payload_weights")),
      Param(Get(r, "flickr_images")), Param(Get(r, "wikipedia")),
      Param(Get(r, "description")))
  }

  /** A rocket without a `height` (or with `height: null`) is stored with the
      JSON text `null`, not with SQL NULL; the same holds for the other three
      JSONB columns. */
  lemma RocketBlobsNeverSqlNull(r: Record)
    ensures RocketRowOf(r).height == JsonText(Get(r, "height")) != Null
    ensures RocketRowOf(r).diameter == JsonText(Get(r, "diameter")) != Null
    ensures RocketRowOf(r).mass == JsonText(Get(r, "mass")) != Null
    ensures RocketRowOf(r).payloadWeights == JsonText(Get(r, "payload_weights")) != Null
    ensures "height" !in r ==> RocketRowOf(r).height == JsonText(JNull)
  {
  }

  function PayloadRowOf(r: Record): PayloadRow
  {
    PayloadRow(
      Get(r, "id"), Param(Get(r, "name")), Param(Get(r, "type")),
      Param(Get(r, "reused")), Param(Get(r, "launch")), Param(Get(r, "customers")),
      Param(Get(r, "norad_ids")), Param(Get(r, "nationalities")),
      Param(Get(r, "manufacturers")), Param(Get(r, "mass_kg")),
      Param(Get(r, "mass_lbs")), Param(Get(r, "orbit")),
      Param(Get(r, "reference_system")), Param(Get(r, "regime")),
      Param(Get(r, "longitude")), Param(Get(r, "semi_major_axis_km")),
      Param(Get(r, "eccentricity")), Param(Get(r, "periapsis_km")),
      Param(Get(r, "apoapsis_km")), Param(Get(r, "inclination_deg")),
      Param(Get(r, "period_min")), Param(Get(r, "lifespan_years")))
  }

  function LaunchRowOf(id: Json, r: Record): LaunchRow
  {
    LaunchRow(
      id, Param(Get(r, "flight_number")), Param(Get(r, "name")),
      Param(Get(r, "date_utc")), Param(Get(r, "date_unix")),
      Param(Get(r, "date_local")), Param(Get(r, "date_precision")),
      Param(Get(r, "static_fire_date_utc")), Param(Get(r, "static_fire_date_unix")),
      Param(Get(r, "net")), Param(Get(r, "window")), Param(Get(r, "rocket")),
      Param(Get(r, "success")), Param(Get(r, "details")), Param(Get(r, "launchpad")),
      Param(Get(r, "auto_update")), Param(Get(r, "tbd")),
      Param(Get(r, "launch_library_id")), Param(Get(r, "upcoming")))
  }

  function FairingsRowOf(f: Record): FairingsRow
  {
    FairingsRow(Param(Get(f, "reused")), Param(Get(f, "recovery_attempt")), Param(Get(f, "recovered")))
  }

  function LinksRowOf(links: Record, patch: Record, reddit: Record): LinksRow
  {
    LinksRow(
      Param(Get(patch, "small")), Param(Get(patch, "large")),
      Param(Get(links, "webcast")), Param(Get(links, "youtube_id")),
      Param(Get(links, "article")), Param(Get(links, "wikipedia")),
      Param(Get(reddit, "campaign")), Param(Get(reddit, "launch")),
      Param(Get(reddit, "media")), Param(Get(reddit, "recovery")))
  }

  function FailureRowOf(f: Record): FailureRow
  {
    FailureRow(Param(Get(f, "time")), Param(Get(f, "altitude")), Param(Get(f, "reason")))
  }

  function CoreRowOf(c: Record): CoreRow
  {
    CoreRow(
      Param(Get(c, "core")), Param(Get(c, "flight")), Param(Get(c, "gridfins")),
      Param(Get(c, "legs")), Param(Get(c, "reused")), Param(Get(c, "landing_attempt")),
      Param(Get(c, "landing_success")), Param(Get(c, "landing_type")),
      Param(Get(c, "landpad")))
  }

  /** An absent key defaults to `{}` or `[]`; a key present with `null` does not. */
  const EmptyObject: Json := JObj(map[])
  const EmptyList: Json := JArr([])

  /** The fairings row, if any: written iff `fairings` is truthy; a truthy
      value that is not an object makes `.get` raise (outer `None`). */
  function FairingsOf(r: Record): Option<Option<FairingsRow>>
  {
    var f := Get(r, "fairings");
    if !Truthy(f) then Some(None)
    else if f.JObj? then Some(Some(FairingsRowOf(f.fields)))
    else None
  }

  /** The links row: `links`, `patch` and `reddit` default to `{}` when
      absent; any of them present but not an object (`null` included) makes
      `.get` raise. */
  function LinksOf(r: Record): Option<LinksRow>
  {
    var links := GetOr(r, "links", EmptyObject);
    if !links.JObj? then None
    else
      var patch := GetOr(links.fields, "patch", EmptyObject);
      var reddit := GetOr(links.fields, "reddit", EmptyObject);
      if patch.JObj? && reddit.JObj? then Some(LinksRowOf(links.fields, patch.fields, reddit.fields))
      else None
  }

  /** One row per element, in order, for a loop that calls `.get` on each
      element; `None` when some element is not an object. */
  function MapObjects<R>(items: seq<Json>, mk: Record -> R): (r: Option<seq<R>>)
    ensures r.Some? <==> forall i :: 0 <= i < |items| ==> items[i].JObj?
    ensures r.Some? ==> |r.value| == |items|
    ensures r.Some? ==> forall i :: 0 <= i < |items| ==> r.value[i] == mk(items[i].fields)
  {
    if items == [] then Some([])
    else
      var init := MapObjects(items[..|items| - 1], mk);
      var last := items[|items| - 1];
      if init.Some? && last.JObj? then Some(init.value + [mk(last.fields)]) else None
  }

  /** One more element of the loop: it adds its row, or it raises. */
  lemma MapObjectsStep<R>(items: seq<Json>, i: nat, mk: Record -> R)
    requires i < |items| && MapObjects(items[..i], mk).Some?
    ensures MapObjects(items[..i + 1], mk) ==
      if items[i].JObj? then Some(MapObjects(items[..i], mk).value + [mk(items[i].fields)]) else None
  {
    assert items[..i + 1][..i] == items[..i];
  }

  /** `for x in launch.get(key, []): ... x.get(...)`. */
  function ObjectRows<R>(r: Record, key: string, mk: Record -> R): Option<seq<R>>
  {
    match Iterate(GetOr(r, key, EmptyList))
    case None => None
    case Some(items) => MapObjects(items, mk)
  }

  /** One association cell per element, in order. */
  function Params(items: seq<Json>): (r: seq<Cell>)
    ensures |r| == |items|
  {
    seq(|items|, i requires 0 <= i < |items| => Param(items[i]))
  }

  lemma ParamsStep(items: seq<Json>, i: nat)
    requires i < |items|
    ensures Params(items[..i + 1]) == Params(items[..i]) + [Param(items[i])]
  {
  }

  /** `for x in launch.get(key, []): INSERT (launch_id, x)`. */
  function AssocCells(r: Record, key: string): Option<seq<Cell>>
  {
    match Iterate(GetOr(r, key, EmptyList))
    case None => None
    case Some(items) => Some(Params(items))
  }

  function AssocKey(a: AssocTable): string
  {
    match a
    case LaunchPayloads => "payloads"
    case Crew => "crew"
    case Ships => "ships"
    case Capsules => "capsules"
  }

  /** The child rows derived from one launch record. */
  datatype Children = Children(
    fairings: Option<FairingsRow>, links: LinksRow,
    failures: seq<FailureRow>, cores: seq<CoreRow>,
    payloads: seq<Cell>, crew: seq<Cell>, ships: seq<Cell>, capsules: seq<Cell>)

  function ChildAssoc(c: Children, a: AssocTable): seq<Cell>
  {
    match a
    case LaunchPayloads => c.payloads
    case Crew => c.crew
    case Ships => c.ships
    case Capsules => c.capsules
  }

  function OptionRows<R>(o: Option<R>): (s: seq<R>)
    ensures |s| <= 1
  {
    if o.Some? then [o.value] else []
  }

  /** Flattening a launch record into child rows, or `None` when the Python
      code would raise while building or writing them. */
  function Flatten(r: Record): (c: Option<Children>)
    ensures c.Some? <==>
      && FairingsOf(r).Some? && LinksOf(r).Some?
      && ObjectRows(r, "failures", FailureRowOf).Some?
      && ObjectRows(r, "cores", CoreRowOf).Some?
      && AssocCells(r, "payloads").Some? && AssocCells(r, "crew").Some?
      && AssocCells(r, "ships").Some? && AssocCells(r, "capsules").Some?
  {
    var fairings := FairingsOf(r);
    var links := LinksOf(r);
    var failures := ObjectRows(r, "failures", FailureRowOf);
    var cores := ObjectRows(r, "cores", CoreRowOf);
    var payloads := AssocCells(r, "payloads");
    var crew := AssocCells(r, "crew");
    var ships := AssocCells(r, "ships");
    var capsules := AssocCells(r, "capsules");
    if fairings.Some? && links.Some? && failures.Some? && cores.Some?
       && payloads.Some? && crew.Some? && ships.Some? && capsules.Some?
    then
      Some(Children(fairings.value, links.value, failures.value, cores.value,
                    payloads.value, crew.value, ships.value, capsules.value))
    else
      None
  }

  /** An explicit `links: null` raises; absent `links` gives one links row
      whose columns are all NULL. Inside `links`, an absent `patch` or
      `reddit` leaves its columns NULL, and one present but not an object
      (`null` included) raises. */
  lemma FlattenLinks(r: Record)
    ensures "links" in r && r["links"] == JNull ==> Flatten(r).None?
    ensures Flatten(r).Some? && "links" !in r ==>
      Flatten(r).value.links == LinksRow(Null, Null, Null, Null, Null, Null, Null, Null, Null, Null)
    ensures var links := GetOr(r, "links", EmptyObject);
      links.JObj? && "patch" in links.fields && !links.fields["patch"].JObj? ==> Flatten(r).None?
    ensures var links := GetOr(r, "links", EmptyObject);
      links.JObj? && "reddit" in links.fields && !links.fields["reddit"].JObj? ==> Flatten(r).None?
    ensures var links := GetOr(r, "links", EmptyObject);
      Flatten(r).Some? && links.JObj? && "patch" !in links.fields ==>
        Flatten(r).value.links.patchSmall == Null && Flatten(r).value.links.patchLarge == Null
    ensures var links := GetOr(r, "links", EmptyObject);
      Flatten(r).Some? && links.JObj? && "reddit" !in links.fields ==>
        && Flatten(r).value.links.redditCampaign == Null && Flatten(r).value.links.redditLaunch == Null
        && Flatten(r).value.links.redditMedia == Null && Flatten(r).value.links.redditRecovery == Null
  {
  }

  /** At most one fairings row, written iff `fairings` is truthy. */
  lemma FlattenFairings(r: Record)
    ensures Flatten(r).Some? ==> (Flatten(r).value.fairings.Some? <==> Truthy(Get(r, "fairings")))
    ensures Flatten(r).Some? && Flatten(r).value.fairings.Some? ==>
      Flatten(r).value.fairings.value == FairingsRowOf(Get(r, "fairings").fields)
  {
  }

  /** One failures row per element of `failures`, in list order. */
  lemma FlattenFailures(r: Record)
    ensures Flatten(r).Some? && GetOr(r, "failures", EmptyList).JArr? ==>
      var items := GetOr(r, "failures", EmptyList).items;
      |Flatten(r).value.failures| == |items| &&
      forall i :: 0 <= i < |items| ==> Flatten(r).value.failures[i] == FailureRowOf(items[i].fields)
  {
  }

  /** One cores row per element of `cores`, in list order. */
  lemma FlattenCores(r: Record)
    ensures Flatten(r).Some? && GetOr(r, "cores", EmptyList).JArr? ==>
      var items := GetOr(r, "cores", EmptyList).items;
      |Flatten(r).value.cores| == |items| &&
      forall i :: 0 <= i < |items| ==> Flatten(r).value.cores[i] == CoreRowOf(items[i].fields)
  {
  }

  /** One association row per element of `payloads`, `crew`, `ships` or
      `capsules`, in list order. */
  lemma FlattenAssoc(r: Record, a: AssocTable)
    ensures Flatten(r).Some? && GetOr(r, AssocKey(a), EmptyList).JArr? ==>
      var items := GetOr(r, AssocKey(a), EmptyList).items;
      |ChildAssoc(Flatten(r).value, a)| == |items| &&
      forall i :: 0 <= i < |items| ==> ChildAssoc(Flatten(r).value, a)[i] == Param(items[i])
  {
  }
}
