/** The raw store writer: `insert_rockets`, `insert_payloads` and
    `insert_launches` running against one database connection.

    The connection holds the committed state of `spacex_data` and the state
    its open transaction sees. `conn.commit()` makes the second the first;
    `conn.rollback()` returns to the first, throwing away every statement
    since the last commit. */
module ExtractData {
  import opened Values
  import opened RawSchema
  import opened RawRows
  import opened RawLoad

  class RawDatabase {
    var committed: RawTables
    var pending: RawTables

    constructor (t: RawTables)
      ensures committed == t && pending == t
    {
      committed := t;
      pending := t;
    }

    method Commit()
      modifies this
      ensures committed == old(pending) && pending == old(pending)
    {
      committed := pending;
    }

    method Rollback()
      modifies this
      ensures pending == old(committed) && committed == old(committed)
    {
      pending := committed;
    }

    /** The rocket upsert statement; it fails when the id is missing, since
        the primary key is NOT NULL. */
    method UpsertRocket(r: Record) returns (ok: bool)
      modifies this
      ensures committed == old(committed)
      ensures ok <==> Get(r, "id") != JNull
      ensures pending == if ok then RocketApply(old(pending), JObj(r)) else old(pending)
    {
      var id := Get(r, "id");
      ok := id != JNull;
      if ok {
        pending := pending.(rockets := pending.rockets[id := RocketRowOf(r)]);
      }
    }

    /** The payload upsert statement. */
    method UpsertPayload(r: Record) returns (ok: bool)
      modifies this
      ensures committed == old(committed)
      ensures ok <==> Get(r, "id") != JNull
      ensures pending == if ok then PayloadApply(old(pending), JObj(r)) else old(pending)
    {
      var id := Get(r, "id");
      ok := id != JNull;
      if ok {
        pending := pending.(payloads := pending.payloads[id := PayloadRowOf(r)]);
      }
    }

    /** `insert_rockets`: an absent or empty list changes nothing; otherwise
        the result is the writer loop of `Replay`, committed unless an
        exception escaped. */
    method InsertRockets(rockets: Option<seq<Json>>) returns (raised: bool)
      modifies this
      ensures rockets.None? || rockets.value == [] ==>
        !raised && committed == old(committed) && pending == old(pending)
      ensures rockets.Some? && rockets.value != [] ==>
        var run := Replay(old(pending), old(committed), rockets.value, ParentKind, RocketApply);
        && pending == run.tables && raised == run.raised
        && committed == (if run.raised then old(committed) else run.tables)
    {
      if rockets.None? || rockets.value == [] {
        return false;
      }
      var items := rockets.value;
      for i := 0 to |items|
        invariant committed == old(committed)
        invariant Replay(old(pending), old(committed), items[..i], ParentKind, RocketApply) == Run(pending, false)
      {
        ReplayStep(old(pending), old(committed), items, ParentKind, RocketApply, i);
        var rocket := items[i];
        if !rocket.JObj? {
          ReplaySticky(old(pending), old(committed), items, ParentKind, RocketApply, i + 1);
          return true;
        }
        var ok := UpsertRocket(rocket.fields);
        if !ok {
          Rollback();
        }
      }
      assert items[..|items|] == items;
      Commit();
      raised := false;
    }

    /** `insert_payloads`, the same loop over the payloads table. */
    method InsertPayloads(payloads: Option<seq<Json>>) returns (raised: bool)
      modifies this
      ensures payloads.None? || payloads.value == [] ==>
        !raised && committed == old(committed) && pending == old(pending)
      ensures payloads.Some? && payloads.value != [] ==>
        var run := Replay(old(pending), old(committed), payloads.value, ParentKind, PayloadApply);
        && pending == run.tables && raised == run.raised
        && committed == (if run.raised then old(committed) else run.tables)
    {
      if payloads.None? || payloads.value == [] {
        return false;
      }
      var items := payloads.value;
      for i := 0 to |items|
        invariant committed == old(committed)
        invariant Replay(old(pending), old(committed), items[..i], ParentKind, PayloadApply) == Run(pending, false)
      {
        ReplayStep(old(pending), old(committed), items, ParentKind, PayloadApply, i);
        var payload := items[i];
        if !payload.JObj? {
          ReplaySticky(old(pending), old(committed), items, ParentKind, PayloadApply, i + 1);
          return true;
        }
        var ok := UpsertPayload(payload.fields);
        if !ok {
          Rollback();
        }
      }
      assert items[..|items|] == items;
      Commit();
      raised := false;
    }

    /** `DELETE FROM spacex_data.<table> WHERE launch_id = %s`. */
    method DeleteChildRows(table: ChildTable, id: Json)
      modifies this
      ensures committed == old(committed)
      ensures pending == ClearTable(old(pending), table, id)
    {
      pending := ClearTable(pending, table, id);
    }

    /** `for fail in launch.get("failures", []): INSERT ...`. */
    method InsertFailures(id: Json, v: Json) returns (ok: bool)
      modifies this
      ensures committed == old(committed)
      ensures ok <==> Iterate(v).Some? && MapObjects(Iterate(v).value, FailureRowOf).Some?
      ensures ok ==> pending == old(pending).(failures := old(pending).failures
                                 + Tag(id, MapObjects(Iterate(v).value, FailureRowOf).value))
    {
      var items := Iterate(v);
      if items.None? {
        return false;
      }
      var rows;
      rows, ok := AppendObjectRows(pending.failures, id, items.value, FailureRowOf);
      if ok {
        pending := pending.(failures := rows);
      }
    }

    /** `for core in launch.get("cores", []): INSERT ...`. */
    method InsertCores(id: Json, v: Json) returns (ok: bool)
      modifies this
      ensures committed == old(committed)
      ensures ok <==> Iterate(v).Some? && MapObjects(Iterate(v).value, CoreRowOf).Some?
      ensures ok ==> pending == old(pending).(cores := old(pending).cores
                                 + Tag(id, MapObjects(Iterate(v).value, CoreRowOf).value))
    {
      var items := Iterate(v);
      if items.None? {
        return false;
      }
      var rows;
      rows, ok := AppendObjectRows(pending.cores, id, items.value, CoreRowOf);
      if ok {
        pending := pending.(cores := rows);
      }
    }

    /** `for x in launch.get(key, []): INSERT (launch_id, x)` for one of the
        payload, crew, ship and capsule association tables. */
    method InsertAssocRows(a: AssocTable, id: Json, v: Json) returns (ok: bool)
      modifies this
      ensures committed == old(committed)
      ensures ok <==> Iterate(v).Some?
      ensures ok ==> pending == WithAssocRows(old(pending), a,
                                  AssocRows(old(pending), a) + Tag(id, Params(Iterate(v).value)))
    {
      var items := Iterate(v);
      if items.None? {
        return false;
      }
      var rows := AppendCells(AssocRows(pending, a), id, items.value);
      pending := WithAssocRows(pending, a, rows);
      return true;
    }

    /** `for table in child_tables: DELETE ... WHERE launch_id = %s`. */
    method ClearLaunch(id: Json)
      modifies this
      ensures committed == old(committed)
      ensures pending == ClearAll(old(pending), id)
    {
      for i := 0 to |ChildTables|
        invariant committed == old(committed)
        invariant pending == ClearFirst(old(pending), id, i)
      {
        DeleteChildRows(ChildTables[i], id);
      }
      ClearFirstAll(old(pending), id);
    }

    /** The launch upsert, then the fairings row (iff `fairings` is truthy)
        and the links row. */
    method WriteLaunchRow(id: Json, r: Record) returns (ok: bool)
      modifies this
      ensures committed == old(committed)
      ensures ok <==> FairingsOf(r).Some? && LinksOf(r).Some?
      ensures ok ==> pending == old(pending).(
        launches := old(pending).launches[id := LaunchRowOf(id, r)],
        fairings := old(pending).fairings + Tag(id, OptionRows(FairingsOf(r).value)),
        links := old(pending).links + [Keyed(id, LinksOf(r).value)])
    {
      pending := pending.(launches := pending.launches[id := LaunchRowOf(id, r)]);

      var fairings := Get(r, "fairings");
      if Truthy(fairings) {
        if !fairings.JObj? {
          return false;
        }
        pending := pending.(fairings := pending.fairings + [Keyed(id, FairingsRowOf(fairings.fields))]);
      }
      var links := GetOr(r, "links", EmptyObject);
      if !links.JObj? {
        return false;
      }
      var patch := GetOr(links.fields, "patch", EmptyObject);
      var reddit := GetOr(links.fields, "reddit", EmptyObject);
      if !patch.JObj? || !reddit.JObj? {
        return false;
      }
      pending := pending.(links := pending.links + [Keyed(id, LinksRowOf(links.fields, patch.fields, reddit.fields))]);
      return true;
    }

    /** One row per element of `failures`, `cores`, `payloads`, `crew`,
        `ships` and `capsules`, in that order. */
    method WriteLaunchLists(id: Json, r: Record) returns (ok: bool)
      modifies this
      ensures committed == old(committed)
      ensures ok <==>
        && ObjectRows(r, "failures", FailureRowOf).Some?
        && ObjectRows(r, "cores", CoreRowOf).Some?
        && AssocCells(r, "payloads").Some? && AssocCells(r, "crew").Some?
        && AssocCells(r, "ships").Some? && AssocCells(r, "capsules").Some?
      ensures ok ==> pending == old(pending).(
        failures := old(pending).failures + Tag(id, ObjectRows(r, "failures", FailureRowOf).value),
        cores := old(pending).cores + Tag(id, ObjectRows(r, "cores", CoreRowOf).value),
        launchPayloads := old(pending).launchPayloads + Tag(id, AssocCells(r, "payloads").value),
        crew := old(pending).crew + Tag(id, AssocCells(r, "crew").value),
        ships := old(pending).ships + Tag(id, AssocCells(r, "ships").value),
        capsules := old(pending).capsules + Tag(id, AssocCells(r, "capsules").value))
    {
      ok := InsertFailures(id, GetOr(r, "failures", EmptyList));
      if !ok {
        return;
      }
      ok := InsertCores(id, GetOr(r, "cores", EmptyList));
      if !ok {
        return;
      }
      ok := InsertAssocRows(LaunchPayloads, id, GetOr(r, "payloads", EmptyList));
      if !ok {
        return;
      }
      ok := InsertAssocRows(Crew, id, GetOr(r, "crew", EmptyList));
      if !ok {
        return;
      }
      ok := InsertAssocRows(Ships, id, GetOr(r, "ships", EmptyList));
      if !ok {
        return;
      }
      ok := InsertAssocRows(Capsules, id, GetOr(r, "capsules", EmptyList));
    }

    /** The body of the `try` in `insert_launches` for one launch: delete its
        rows from every child table, upsert it, insert its child rows. It
        fails exactly when flattening the record raises; the caller then
        rolls back. */
    method WriteLaunch(id: Json, r: Record) returns (ok: bool)
      requires Truthy(id) && id == Get(r, "id")
      modifies this
      ensures committed == old(committed)
      ensures ok <==> Flatten(r).Some?
      ensures ok ==> pending == ReplaceLaunch(old(pending), id, LaunchRowOf(id, r), Flatten(r).value)
    {
      ClearLaunch(id);
      ghost var cleared := pending;
      ok := WriteLaunchRow(id, r);
      if !ok {
        return;
      }
      ghost var parents := pending;
      ok := WriteLaunchLists(id, r);
      if !ok {
        return;
      }
      WriteLaunchResult(old(pending), cleared, parents, pending, id, r);
    }

    /** `insert_launches`: an absent or empty list changes nothing; a launch
        with a falsy id is skipped; otherwise the writer loop of `Replay`,
        committed unless an exception escaped. */
    method InsertLaunches(launches: Option<seq<Json>>) returns (raised: bool)
      modifies this
      ensures launches.None? || launches.value == [] ==>
        !raised && committed == old(committed) && pending == old(pending)
      ensures launches.Some? && launches.value != [] ==>
        var run := Replay(old(pending), old(committed), launches.value, LaunchKind, LaunchApply);
        && pending == run.tables && raised == run.raised
        && committed == (if run.raised then old(committed) else run.tables)
    {
      if launches.None? || launches.value == [] {
        return false;
      }
      var items := launches.value;
      for i := 0 to |items|
        invariant committed == old(committed)
        invariant Replay(old(pending), old(committed), items[..i], LaunchKind, LaunchApply) == Run(pending, false)
      {
        ReplayStep(old(pending), old(committed), items, LaunchKind, LaunchApply, i);
        var launch := items[i];
        if !launch.JObj? {
          ReplaySticky(old(pending), old(committed), items, LaunchKind, LaunchApply, i + 1);
          return true;
        }
        var launchId := Get(launch.fields, "id");
        if !Truthy(launchId) {
          continue;
        }
        var ok := WriteLaunch(launchId, launch.fields);
        if !ok {
          Rollback();
        }
      }
      assert items[..|items|] == items;
      Commit();
      raised := false;
    }
  }

  /** The INSERT of a failures or cores loop, one statement per element:
      the table grows by one row per element, in order, and the loop raises
      at the first element that is not an object. */
  method AppendObjectRows<R>(table: seq<Keyed<R>>, id: Json, items: seq<Json>, mk: Record -> R)
    returns (out: seq<Keyed<R>>, ok: bool)
    ensures ok <==> MapObjects(items, mk).Some?
    ensures ok ==> out == table + Tag(id, MapObjects(items, mk).value)
  {
    out := table;
    ghost var rows := [];
    for i := 0 to |items|
      invariant MapObjects(items[..i], mk) == Some(rows)
      invariant out == table + Tag(id, rows)
    {
      MapObjectsStep(items, i, mk);
      if !items[i].JObj? {
        return out, false;
      }
      var row := mk(items[i].fields);
      AppendTagged(table, id, rows, row);
      rows := rows + [row];
      out := out + [Keyed(id, row)];
    }
    assert items[..|items|] == items;
    return out, true;
  }

  /** The INSERT of an association loop, one statement per element. */
  method AppendCells(table: seq<Keyed<Cell>>, id: Json, items: seq<Json>) returns (out: seq<Keyed<Cell>>)
    ensures out == table + Tag(id, Params(items))
  {
    out := table;
    for i := 0 to |items|
      invariant out == table + Tag(id, Params(items[..i]))
    {
      ParamsStep(items, i);
      AppendTagged(table, id, Params(items[..i]), Param(items[i]));
      out := out + [Keyed(id, Param(items[i]))];
    }
    assert items[..|items|] == items;
  }

  /** The statements of `WriteLaunch`, put together, give `ReplaceLaunch`. */
  lemma WriteLaunchResult(t0: RawTables, cleared: RawTables, parents: RawTables, t: RawTables,
                          id: Json, r: Record)
    requires cleared == ClearAll(t0, id)
    requires Flatten(r).Some?
    requires parents == cleared.(
      launches := cleared.launches[id := LaunchRowOf(id, r)],
      fairings := cleared.fairings + Tag(id, OptionRows(Flatten(r).value.fairings)),
      links := cleared.links + [Keyed(id, Flatten(r).value.links)])
    requires t == parents.(
      failures := parents.failures + Tag(id, Flatten(r).value.failures),
      cores := parents.cores + Tag(id, Flatten(r).value.cores),
      launchPayloads := parents.launchPayloads + Tag(id, Flatten(r).value.payloads),
      crew := parents.crew + Tag(id, Flatten(r).value.crew),
      ships := parents.ships + Tag(id, Flatten(r).value.ships),
      capsules := parents.capsules + Tag(id, Flatten(r).value.capsules))
    ensures t == ReplaceLaunch(t0, id, LaunchRowOf(id, r), Flatten(r).value)
  {
    assert Tag(id, [Flatten(r).value.links]) == [Keyed(id, Flatten(r).value.links)];
  }
}
