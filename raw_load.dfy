/** What a call of `insert_rockets`, `insert_payloads` or `insert_launches`
    does to the raw store, as functions of the state before the call.

    Each of the three writers loops over the fetched records. A record either
    has its statements applied to the open transaction (`Good`), or makes a
    statement fail, after which `conn.rollback()` throws away EVERY uncommitted
    statement of the call, not only this record's (`Bad`), or makes the
    `except` handler itself raise, so that the exception leaves the call
    before the final `conn.commit()` (`Escapes`). */
module RawLoad {
  import opened Values
  import opened RawSchema
  import opened RawRows

  datatype Kind = Good | Bad | Escapes

  /** The open transaction after a loop, and whether an exception escaped. */
  datatype Run = Run(tables: RawTables, raised: bool)

  /** The writer loop: `pending` is what the transaction sees when the call
      starts, `committed` what `conn.rollback()` returns to. */
  function Replay(pending: RawTables, committed: RawTables, items: seq<Json>,
                  kind: Json -> Kind, apply: (RawTables, Json) -> RawTables): Run
  {
    if items == [] then Run(pending, false)
    else
      var prev := Replay(pending, committed, items[..|items| - 1], kind, apply);
      var x := items[|items| - 1];
      if prev.raised then prev
      else match kind(x)
        case Good => Run(apply(prev.tables, x), false)
        case Bad => Run(committed, false)
        case Escapes => Run(prev.tables, true)
  }

  /** Applying the records one after the other, with no failure. */
  function Fold(t: RawTables, items: seq<Json>, apply: (RawTables, Json) -> RawTables): RawTables
  {
    if items == [] then t
    else apply(Fold(t, items[..|items| - 1], apply), items[|items| - 1])
  }

  /** One more iteration of the writer loop, when no exception has escaped. */
  lemma ReplayStep(p: RawTables, c: RawTables, items: seq<Json>,
                   kind: Json -> Kind, apply: (RawTables, Json) -> RawTables, i: nat)
    requires i < |items|
    requires !Replay(p, c, items[..i], kind, apply).raised
    ensures Replay(p, c, items[..i + 1], kind, apply) ==
      match kind(items[i])
      case Good => Run(apply(Replay(p, c, items[..i], kind, apply).tables, items[i]), false)
      case Bad => Run(c, false)
      case Escapes => Run(Replay(p, c, items[..i], kind, apply).tables, true)
  {
    assert items[..i + 1][..i] == items[..i];
  }

  /** Once an exception has escaped, the records after it are never visited. */
  lemma {:induction false} ReplaySticky(p: RawTables, c: RawTables, items: seq<Json>,
                                        kind: Json -> Kind, apply: (RawTables, Json) -> RawTables, n: nat)
    requires n <= |items|
    requires Replay(p, c, items[..n], kind, apply).raised
    ensures Replay(p, c, items, kind, apply) == Replay(p, c, items[..n], kind, apply)
    decreases |items|
  {
    if n < |items| {
      assert items[..|items| - 1][..n] == items[..n];
      ReplaySticky(p, c, items[..|items| - 1], kind, apply, n);
    } else {
      assert items[..n] == items;
    }
  }

  /** An exception escapes iff some record escapes. */
  lemma {:induction false} ReplayRaised(p: RawTables, c: RawTables, items: seq<Json>,
                                        kind: Json -> Kind, apply: (RawTables, Json) -> RawTables)
    ensures Replay(p, c, items, kind, apply).raised <==> exists i :: 0 <= i < |items| && kind(items[i]) == Escapes
    decreases |items|
  {
    if items != [] {
      var init := items[..|items| - 1];
      ReplayRaised(p, c, init, kind, apply);
      if exists i :: 0 <= i < |init| && kind(init[i]) == Escapes {
        var i :| 0 <= i < |init| && kind(init[i]) == Escapes;
        assert items[i] == init[i];
      }
      if exists i :: 0 <= i < |items| && kind(items[i]) == Escapes {
        var i :| 0 <= i < |items| && kind(items[i]) == Escapes;
        if i < |init| { assert init[i] == items[i]; }
      }
    }
  }

  /** With no failing record the call applies every record in order. */
  lemma {:induction false} ReplayAllGood(p: RawTables, c: RawTables, items: seq<Json>,
                                         kind: Json -> Kind, apply: (RawTables, Json) -> RawTables)
    requires forall i :: 0 <= i < |items| ==> kind(items[i]) == Good
    ensures Replay(p, c, items, kind, apply) == Run(Fold(p, items, apply), false)
    decreases |items|
  {
    if items != [] {
      var init := items[..|items| - 1];
      assert forall i :: 0 <= i < |init| ==> init[i] == items[i];
      ReplayAllGood(p, c, init, kind, apply);
    }
  }

  /** The rollback scope: when record `k` is the last one to fail, the call
      leaves the committed state with only the records after `k` applied;
      everything before `k`, in this call, is lost. */
  lemma {:induction false} ReplayLastBad(p: RawTables, c: RawTables, items: seq<Json>,
                                         kind: Json -> Kind, apply: (RawTables, Json) -> RawTables, k: nat)
    requires k < |items|
    requires forall i :: 0 <= i < |items| ==> kind(items[i]) != Escapes
    requires kind(items[k]) == Bad
    requires forall i :: k < i < |items| ==> kind(items[i]) == Good
    ensures Replay(p, c, items, kind, apply) == Run(Fold(c, items[k + 1..], apply), false)
    decreases |items|
  {
    var init := items[..|items| - 1];
    ReplayRaised(p, c, init, kind, apply);
    assert forall i :: 0 <= i < |init| ==> init[i] == items[i];
    if k == |items| - 1 {
      assert items[k + 1..] == [];
    } else {
      ReplayLastBad(p, c, init, kind, apply, k);
      assert items[k + 1..][..|items[k + 1..]| - 1] == init[k + 1..];
    }
  }

  /** The loop keeps the primary-key invariant of the parent tables. */
  lemma {:induction false} ReplayKeepsParentsValid(p: RawTables, c: RawTables, items: seq<Json>,
                                                   kind: Json -> Kind, apply: (RawTables, Json) -> RawTables)
    requires ParentsValid(p) && ParentsValid(c)
    requires forall t, x :: ParentsValid(t) ==> ParentsValid(apply(t, x))
    ensures ParentsValid(Replay(p, c, items, kind, apply).tables)
    decreases |items|
  {
    if items != [] {
      ReplayKeepsParentsValid(p, c, items[..|items| - 1], kind, apply);
    }
  }

  // ---------------------------------------------------------------------
  // insert_rockets and insert_payloads: INSERT ... ON CONFLICT (id) DO UPDATE

  /** `record.get('id')`, or `None` for an element that is not an object. */
  function IdOf(x: Json): Json
  {
    if x.JObj? then Get(x.fields, "id") else JNull
  }

  /** A missing id violates the primary key (NOT NULL): the upsert fails. An
      element that is not an object makes `.get` raise inside `try`, and the
      handler's own `rocket.get('id')` raises again, out of the call. */
  function ParentKind(x: Json): Kind
  {
    if !x.JObj? then Escapes
    else if Get(x.fields, "id") == JNull then Bad
    else Good
  }

  /** The upsert of every record in order: each id ends up holding the row of
      its last occurrence, every column overwritten. */
  function UpsertAll<R>(m: map<Json, R>, items: seq<Json>, mk: Record -> R): map<Json, R>
  {
    if items == [] then m
    else
      var prev := UpsertAll(m, items[..|items| - 1], mk);
      var x := items[|items| - 1];
      if x.JObj? && IdOf(x) != JNull then prev[IdOf(x) := mk(x.fields)] else prev
  }

  lemma {:induction false} UpsertAllLastWins<R>(m: map<Json, R>, items: seq<Json>, mk: Record -> R, j: nat)
    requires j < |items| && items[j].JObj? && IdOf(items[j]) != JNull
    requires forall i :: j < i < |items| ==> IdOf(items[i]) != IdOf(items[j])
    ensures IdOf(items[j]) in UpsertAll(m, items, mk)
    ensures UpsertAll(m, items, mk)[IdOf(items[j])] == mk(items[j].fields)
    decreases |items|
  {
    if j < |items| - 1 {
      var init := items[..|items| - 1];
      assert forall i :: j < i < |init| ==> init[i] == items[i];
      UpsertAllLastWins(m, init, mk, j);
    }
  }

  lemma {:induction false} UpsertAllUntouched<R>(m: map<Json, R>, items: seq<Json>, mk: Record -> R, k: Json)
    requires forall i :: 0 <= i < |items| ==> IdOf(items[i]) != k
    ensures k in UpsertAll(m, items, mk) <==> k in m
    ensures k in m ==> UpsertAll(m, items, mk)[k] == m[k]
    decreases |items|
  {
    if items != [] {
      var init := items[..|items| - 1];
      assert forall i :: 0 <= i < |init| ==> init[i] == items[i];
      UpsertAllUntouched(m, init, mk, k);
    }
  }

  lemma {:induction false} UpsertAllKeysNotNull<R>(m: map<Json, R>, items: seq<Json>, mk: Record -> R)
    requires JNull !in m
    ensures JNull !in UpsertAll(m, items, mk)
    decreases |items|
  {
    if items != [] {
      UpsertAllKeysNotNull(m, items[..|items| - 1], mk);
    }
  }

  function RocketApply(t: RawTables, x: Json): RawTables
  {
    if x.JObj? && IdOf(x) != JNull then t.(rockets := t.rockets[IdOf(x) := RocketRowOf(x.fields)]) else t
  }

  function PayloadApply(t: RawTables, x: Json): RawTables
  {
    if x.JObj? && IdOf(x) != JNull then t.(payloads := t.payloads[IdOf(x) := PayloadRowOf(x.fields)]) else t
  }

  /** Rocket upserts touch the rockets table and nothing else. */
  lemma {:induction false} FoldRockets(t: RawTables, items: seq<Json>)
    ensures Fold(t, items, RocketApply) == t.(rockets := UpsertAll(t.rockets, items, RocketRowOf))
    decreases |items|
  {
    if items != [] {
      FoldRockets(t, items[..|items| - 1]);
    }
  }

  /** Payload upserts touch the payloads table and nothing else. */
  lemma {:induction false} FoldPayloads(t: RawTables, items: seq<Json>)
    ensures Fold(t, items, PayloadApply) == t.(payloads := UpsertAll(t.payloads, items, PayloadRowOf))
    decreases |items|
  {
    if items != [] {
      FoldPayloads(t, items[..|items| - 1]);
    }
  }

  lemma RocketApplyKeepsParentsValid()
    ensures forall t, x :: ParentsValid(t) ==> ParentsValid(RocketApply(t, x))
  {
  }

  lemma PayloadApplyKeepsParentsValid()
    ensures forall t, x :: ParentsValid(t) ==> ParentsValid(PayloadApply(t, x))
  {
  }

  /** After an `insert_rockets` call in which no record failed, each input id
      has exactly one row, holding its last occurrence's values; every other
      row and every other table is as before. */
  lemma InsertRocketsUpserts(p: RawTables, c: RawTables, items: seq<Json>, j: nat, k: Json)
    requires forall i :: 0 <= i < |items| ==> ParentKind(items[i]) == Good
    requires j < |items|
    requires forall i :: j < i < |items| ==> IdOf(items[i]) != IdOf(items[j])
    requires forall i :: 0 <= i < |items| ==> IdOf(items[i]) != k
    ensures !Replay(p, c, items, ParentKind, RocketApply).raised
    ensures items[j].JObj? && IdOf(items[j]) in Replay(p, c, items, ParentKind, RocketApply).tables.rockets
    ensures Replay(p, c, items, ParentKind, RocketApply).tables.rockets[IdOf(items[j])] == RocketRowOf(items[j].fields)
    ensures k in Replay(p, c, items, ParentKind, RocketApply).tables.rockets <==> k in p.rockets
    ensures k in p.rockets ==> Replay(p, c, items, ParentKind, RocketApply).tables.rockets[k] == p.rockets[k]
    ensures Replay(p, c, items, ParentKind, RocketApply).tables == p.(rockets := UpsertAll(p.rockets, items, RocketRowOf))
  {
    ReplayAllGood(p, c, items, ParentKind, RocketApply);
    FoldRockets(p, items);
    UpsertAllLastWins(p.rockets, items, RocketRowOf, j);
    UpsertAllUntouched(p.rockets, items, RocketRowOf, k);
  }

  /** The same for `insert_payloads`. */
  lemma InsertPayloadsUpserts(p: RawTables, c: RawTables, items: seq<Json>, j: nat, k: Json)
    requires forall i :: 0 <= i < |items| ==> ParentKind(items[i]) == Good
    requires j < |items|
    requires forall i :: j < i < |items| ==> IdOf(items[i]) != IdOf(items[j])
    requires forall i :: 0 <= i < |items| ==> IdOf(items[i]) != k
    ensures !Replay(p, c, items, ParentKind, PayloadApply).raised
    ensures items[j].JObj? && IdOf(items[j]) in Replay(p, c, items, ParentKind, PayloadApply).tables.payloads
    ensures Replay(p, c, items, ParentKind, PayloadApply).tables.payloads[IdOf(items[j])] == PayloadRowOf(items[j].fields)
    ensures k in Replay(p, c, items, ParentKind, PayloadApply).tables.payloads <==> k in p.payloads
    ensures k in p.payloads ==> Replay(p, c, items, ParentKind, PayloadApply).tables.payloads[k] == p.payloads[k]
    ensures Replay(p, c, items, ParentKind, PayloadApply).tables == p.(payloads := UpsertAll(p.payloads, items, PayloadRowOf))
  {
    ReplayAllGood(p, c, items, ParentKind, PayloadApply);
    FoldPayloads(p, items);
    UpsertAllLastWins(p.payloads, items, PayloadRowOf, j);
    UpsertAllUntouched(p.payloads, items, PayloadRowOf, k);
  }

  /** A record with no id is never stored: the stored rockets never have a
      NULL key, whatever the input. */
  lemma RocketsNeverStoreMissingId(p: RawTables, c: RawTables, items: seq<Json>)
    requires ParentsValid(p) && ParentsValid(c)
    ensures ParentsValid(Replay(p, c, items, ParentKind, RocketApply).tables)
    ensures JNull !in Replay(p, c, items, ParentKind, RocketApply).tables.rockets
  {
    RocketApplyKeepsParentsValid();
    ReplayKeepsParentsValid(p, c, items, ParentKind, RocketApply);
  }

  lemma PayloadsNeverStoreMissingId(p: RawTables, c: RawTables, items: seq<Json>)
    requires ParentsValid(p) && ParentsValid(c)
    ensures ParentsValid(Replay(p, c, items, ParentKind, PayloadApply).tables)
    ensures JNull !in Replay(p, c, items, ParentKind, PayloadApply).tables.payloads
  {
    PayloadApplyKeepsParentsValid();
    ReplayKeepsParentsValid(p, c, items, ParentKind, PayloadApply);
  }

  // ---------------------------------------------------------------------
  // insert_launches: delete all children, upsert the launch, insert children

  /** An element that is not an object raises at `launch.get("id")`, outside
      `try`; a falsy id is skipped; a record whose children cannot be built
      raises inside `try` and is rolled back. */
  function LaunchKind(x: Json): Kind
  {
    if !x.JObj? then Escapes
    else if !Truthy(IdOf(x)) then Good
    else if Flatten(x.fields).None? then Bad
    else Good
  }

  /** One launch, reprocessed: its rows are deleted from all eight child
      tables, its parent row upserted, and the fresh child rows appended. */
  function ReplaceLaunch(t: RawTables, id: Json, row: LaunchRow, ch: Children): RawTables
  {
    t.(launches := t.launches[id := row],
       fairings := ReplaceRows(t.fairings, id, OptionRows(ch.fairings)),
       links := ReplaceRows(t.links, id, [ch.links]),
       failures := ReplaceRows(t.failures, id, ch.failures),
       cores := ReplaceRows(t.cores, id, ch.cores),
       launchPayloads := ReplaceRows(t.launchPayloads, id, ch.payloads),
       crew := ReplaceRows(t.crew, id, ch.crew),
       ships := ReplaceRows(t.ships, id, ch.ships),
       capsules := ReplaceRows(t.capsules, id, ch.capsules))
  }

  function LaunchApply(t: RawTables, x: Json): RawTables
  {
    if x.JObj? && Truthy(IdOf(x)) && Flatten(x.fields).Some?
    then ReplaceLaunch(t, IdOf(x), LaunchRowOf(IdOf(x), x.fields), Flatten(x.fields).value)
    else t
  }

  /** A launch with a missing or empty id is skipped and touches no table. */
  lemma LaunchWithoutIdSkipped(t: RawTables, x: Json)
    requires x.JObj? && !Truthy(IdOf(x))
    ensures LaunchKind(x) == Good && LaunchApply(t, x) == t
  {
  }

  /** After launch `id` is processed, its rows in every child table are
      exactly those derived from the current record, stale rows are gone,
      and the rows of every other launch are untouched. */
  lemma ReplaceLaunchSpec(t: RawTables, id: Json, row: LaunchRow, ch: Children, other: Json)
    requires other != id
    ensures var u := ReplaceLaunch(t, id, row, ch);
      && u.launches == t.launches[id := row]
      && u.rockets == t.rockets && u.payloads == t.payloads
      && ForLaunch(u.fairings, id) == OptionRows(ch.fairings)
      && ForLaunch(u.links, id) == [ch.links]
      && ForLaunch(u.failures, id) == ch.failures
      && ForLaunch(u.cores, id) == ch.cores
      && ForLaunch(u.launchPayloads, id) == ch.payloads
      && ForLaunch(u.crew, id) == ch.crew
      && ForLaunch(u.ships, id) == ch.ships
      && ForLaunch(u.capsules, id) == ch.capsules
      && ForLaunch(u.fairings, other) == ForLaunch(t.fairings, other)
      && ForLaunch(u.links, other) == ForLaunch(t.links, other)
      && ForLaunch(u.failures, other) == ForLaunch(t.failures, other)
      && ForLaunch(u.cores, other) == ForLaunch(t.cores, other)
      && ForLaunch(u.launchPayloads, other) == ForLaunch(t.launchPayloads, other)
      && ForLaunch(u.crew, other) == ForLaunch(t.crew, other)
      && ForLaunch(u.ships, other) == ForLaunch(t.ships, other)
      && ForLaunch(u.capsules, other) == ForLaunch(t.capsules, other)
  {
    ReplaceRowsSpec(t.fairings, id, OptionRows(ch.fairings), other);
    ReplaceRowsSpec(t.links, id, [ch.links], other);
    ReplaceRowsSpec(t.failures, id, ch.failures, other);
    ReplaceRowsSpec(t.cores, id, ch.cores, other);
    ReplaceRowsSpec(t.launchPayloads, id, ch.payloads, other);
    ReplaceRowsSpec(t.crew, id, ch.crew, other);
    ReplaceRowsSpec(t.ships, id, ch.ships, other);
    ReplaceRowsSpec(t.capsules, id, ch.capsules, other);
  }

  /** Processing the same launch twice leaves exactly the second run's child
      rows: no duplicates and nothing stale from the first run. */
  lemma ReprocessKeepsLatest(t: RawTables, id: Json, row1: LaunchRow, ch1: Children,
                             row2: LaunchRow, ch2: Children)
    ensures var u := ReplaceLaunch(ReplaceLaunch(t, id, row1, ch1), id, row2, ch2);
      && u.launches[id] == row2
      && ForLaunch(u.fairings, id) == OptionRows(ch2.fairings)
      && ForLaunch(u.links, id) == [ch2.links]
      && ForLaunch(u.failures, id) == ch2.failures
      && ForLaunch(u.cores, id) == ch2.cores
      && ForLaunch(u.launchPayloads, id) == ch2.payloads
      && ForLaunch(u.crew, id) == ch2.crew
      && ForLaunch(u.ships, id) == ch2.ships
      && ForLaunch(u.capsules, id) == ch2.capsules
  {
    var u1 := ReplaceLaunch(t, id, row1, ch1);
    ReplaceRowsSpec(u1.fairings, id, OptionRows(ch2.fairings), id);
    ReplaceRowsSpec(u1.links, id, [ch2.links], id);
    ReplaceRowsSpec(u1.failures, id, ch2.failures, id);
    ReplaceRowsSpec(u1.cores, id, ch2.cores, id);
    ReplaceRowsSpec(u1.launchPayloads, id, ch2.payloads, id);
    ReplaceRowsSpec(u1.crew, id, ch2.crew, id);
    ReplaceRowsSpec(u1.ships, id, ch2.ships, id);
    ReplaceRowsSpec(u1.capsules, id, ch2.capsules, id);
  }

  /** Reprocessing a launch under a non-NULL id keeps the parent-key invariant. */
  lemma ReplaceLaunchKeepsParentsValid(t: RawTables, id: Json, row: LaunchRow, ch: Children)
    requires ParentsValid(t) && id != JNull && row.id == id
    ensures ParentsValid(ReplaceLaunch(t, id, row, ch))
  {
  }

  lemma LaunchApplyKeepsParentsValid()
    ensures forall t, x :: ParentsValid(t) ==> ParentsValid(LaunchApply(t, x))
  {
    forall t, x | ParentsValid(t)
      ensures ParentsValid(LaunchApply(t, x))
    {
      if x.JObj? && Truthy(IdOf(x)) && Flatten(x.fields).Some? {
        ReplaceLaunchKeepsParentsValid(t, IdOf(x), LaunchRowOf(IdOf(x), x.fields), Flatten(x.fields).value);
      }
    }
  }

  /** The launch writer as a whole keeps every parent row under its own
      non-NULL identifier, whatever the input. */
  lemma LaunchesKeepParentsValid(p: RawTables, c: RawTables, items: seq<Json>)
    requires ParentsValid(p) && ParentsValid(c)
    ensures ParentsValid(Replay(p, c, items, LaunchKind, LaunchApply).tables)
    ensures JNull !in Replay(p, c, items, LaunchKind, LaunchApply).tables.launches
  {
    LaunchApplyKeepsParentsValid();
    ReplayKeepsParentsValid(p, c, items, LaunchKind, LaunchApply);
  }
}
