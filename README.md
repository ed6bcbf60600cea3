# SpaceX pipeline: raw load, transform and analytics load

A Dafny model of the three stages of the SpaceX data pipeline.

1. **Raw load** (`insert_rockets`, `insert_payloads`, `insert_launches`).
   - Fetched JSON records are reconciled into the `spacex_data` schema.
   - Rockets and payloads are upserted by primary key.
   - Each launch has its rows deleted from the eight child tables. Then its row is upserted and fresh child rows, flattened from the nested record, are inserted.
2. **Transform** (`transformed_fact_data`, `transformed_dimension_data`). Reads the raw tables into frames.
   - The fact frame is an inner join of launches with their links rows.
   - The two dimension frames are returned as an option pair.
3. **Analytics load** (`insert_transformed_data_sql` and the guard in `main`).
   - Each non-empty frame truncates and refills its table in `spacex_analytics`.
   - The rockets frame is written after its four JSON columns are serialised.
   - All three tables share one transaction.

PostgreSQL is replaced by an in-memory store:
- parent tables are maps keyed by the identifier;
- the eight child tables are sequences of rows tagged with a `launch_id`;
- a connection holds a committed state and the state its open transaction sees, so that `conn.commit()` and `conn.rollback()` can be stated. The connection is taken to be in psycopg2's default mode, with autocommit off, so every statement joins the open transaction until `commit` or `rollback`. `db/connection.py`, which opens it, is not part of this model; the rollback scope described below depends on this mode.

The writers are classes whose methods run the source's loops: `ExtractData.RawDatabase` and `LoadData.AnalyticsDatabase`. Each is proved against a specification function:
- `RawLoad.Replay` for the raw writer loop;
- `LoadData.LoadTables` for the analytics load.

The properties are proved about those functions.

Files:
- `values.dfy`: JSON values as Python sees them, and SQL cells.
- `raw_schema.dfy`: the raw tables and child-table operations.
- `raw_rows.dfy`: records to row tuples, and launch flattening.
- `raw_load.dfy`: the specification of the three raw writers.
- `extract_data.dfy`: the raw writer class.
- `transform_data.dfy`: the transform stage.
- `load_data.dfy`: the analytics load.

Where the code and its design description disagree, the model follows the code:
- **Rollback scope.** In the raw writers, a failing row does not roll back only its own work. `conn.rollback()` throws away every uncommitted statement of the call, because the only `conn.commit()` comes after the loop. See `RawLoad.ReplayLastBad`.
- **Non-object elements.** An element of the rockets or payloads list that is not an object makes the `except` handler's own `.get` raise, so the exception leaves the call with nothing committed. For launches, the same happens at `launch.get("id")`, which is outside the `try`. See `RawLoad.ReplayRaised`.
- **Payload read failure.** `transformed_dimension_data` reads both frames inside one `try`. A payloads read that raises therefore also discards the rockets frame already read.

## Model

| member | source | states |
|---|---|---|
| Values.Param | spacex_pipeline/extract_data.py:133-138 | a parameter binds as SQL NULL exactly when the Python value is `None` |
| Values.DecodeDumps | spacex_pipeline/extract_data.py:136-137 | records the model's encoding of a `json.dumps` parameter stored in a JSONB column: it is never SQL NULL and reads back as the value dumped; this holds by the choice of `JsonText`, not by reasoning about JSON text |
| RawSchema.WithAssocRows | spacex_pipeline/extract_data.py:245-248 | writing one association table changes that table and no other |
| RawSchema.ForLaunchAppend | spacex_pipeline/extract_data.py:237-248 | a launch's rows in a table grown by appending are its rows before, followed by its rows among those appended |
| RawSchema.ForLaunchWithout | spacex_pipeline/extract_data.py:209-210 | `DELETE ... WHERE launch_id = id` leaves no row of that launch and every other launch's rows, in order |
| RawSchema.ForLaunchTag | spacex_pipeline/extract_data.py:238-248 | rows inserted for a launch are that launch's rows, in insertion order, and belong to no other launch |
| RawSchema.AppendTagged | spacex_pipeline/extract_data.py:243-248 | appending one more row for a launch extends the tagged block of that launch by exactly that row |
| RawSchema.ReplaceRowsSpec | spacex_pipeline/extract_data.py:209-210 | delete-then-insert in one child table leaves the launch with exactly the new rows and every other launch with its old rows |
| RawSchema.ClearFirstAll | spacex_pipeline/extract_data.py:196-200 | running the DELETE over the eight tables of `child_tables` in order clears exactly the launch's rows from each of them and touches no parent table |
| RawRows.RocketBlobsNeverSqlNull | spacex_pipeline/extract_data.py:136-137 | height, diameter, mass and payload_weights are stored as JSON text; a missing height is stored as the text `null`, not SQL NULL |
| RawRows.MapObjects | spacex_pipeline/extract_data.py:243-244 | a loop calling `.get` on each element gives one row per element in order, and raises iff some element is not an object |
| RawRows.MapObjectsStep | spacex_pipeline/extract_data.py:243-244 | the row loop over one more element either appends that element's row or raises when it is not an object |
| RawRows.Flatten | spacex_pipeline/extract_data.py:237-248 | a launch's child rows can be built iff fairings, links and each of the six lists can be |
| RawRows.FlattenLinks | spacex_pipeline/extract_data.py:239-242 | an explicit `links: null` raises; absent `links` gives one links row whose ten columns are all NULL; inside `links`, an absent `patch` or `reddit` leaves its columns NULL and one present but not an object (`null` included) raises |
| RawRows.FlattenFairings | spacex_pipeline/extract_data.py:237-238 | at most one fairings row, written iff `fairings` is truthy, carrying its three fields |
| RawRows.FlattenFailures | spacex_pipeline/extract_data.py:243 | one failures row per element of `failures`, in list order |
| RawRows.FlattenCores | spacex_pipeline/extract_data.py:244 | one cores row per element of `cores`, in list order |
| RawRows.FlattenAssoc | spacex_pipeline/extract_data.py:245-248 | one association row per element of `payloads`, `crew`, `ships` or `capsules`, in list order |
| RawLoad.ReplaySticky | spacex_pipeline/extract_data.py:140-143 | once an exception escapes the loop, no later record is visited |
| RawLoad.ReplayStep | spacex_pipeline/extract_data.py:116-143 | one more record of the writer loop either applies its write, rolls back to the committed state, or lets its exception escape |
| RawLoad.ReplayRaised | spacex_pipeline/extract_data.py:140-143 | the call raises iff some element makes the handler itself raise (an element that is not an object) |
| RawLoad.ReplayAllGood | spacex_pipeline/extract_data.py:116-144 | with no failing record the call applies every record in order |
| RawLoad.ReplayLastBad | spacex_pipeline/extract_data.py:140-144 | when record k is the last to fail, the result is the committed state with only the records after k applied; earlier records of the call are lost |
| RawLoad.ReplayKeepsParentsValid | spacex_pipeline/extract_data.py:116-144 | the writer loop keeps every parent row under its own non-NULL identifier |
| RawLoad.UpsertAllLastWins | spacex_pipeline/extract_data.py:124-131 | after the upserts an id holds the row of its last occurrence, every column overwritten |
| RawLoad.UpsertAllUntouched | spacex_pipeline/extract_data.py:118-131 | an id not in the input keeps its row, or stays absent |
| RawLoad.UpsertAllKeysNotNull | spacex_pipeline/extract_data.py:133 | upserts never introduce a NULL key |
| RawLoad.FoldRockets | spacex_pipeline/extract_data.py:118-139 | the rocket upserts change the rockets table and no other |
| RawLoad.FoldPayloads | spacex_pipeline/extract_data.py:157-181 | the payload upserts change the payloads table and no other |
| RawLoad.RocketApplyKeepsParentsValid | spacex_pipeline/extract_data.py:118-139 | one rocket upsert keeps the parent-key invariant |
| RawLoad.PayloadApplyKeepsParentsValid | spacex_pipeline/extract_data.py:157-181 | one payload upsert keeps the parent-key invariant |
| RawLoad.InsertRocketsUpserts | spacex_pipeline/extract_data.py:116-144 | with no failing record: no exception, each input id holds its last occurrence's row, other ids and other tables are unchanged |
| RawLoad.InsertPayloadsUpserts | spacex_pipeline/extract_data.py:155-186 | the same for payloads |
| RawLoad.RocketsNeverStoreMissingId | spacex_pipeline/extract_data.py:133-143 | a rocket with no id takes the error path; no rocket row is ever stored under a NULL id |
| RawLoad.PayloadsNeverStoreMissingId | spacex_pipeline/extract_data.py:174-185 | a payload with no id is never stored |
| RawLoad.LaunchWithoutIdSkipped | spacex_pipeline/extract_data.py:204-206 | a launch with a missing or empty id is skipped and touches no table |
| RawLoad.ReplaceLaunchSpec | spacex_pipeline/extract_data.py:209-248 | after launch L is processed, L's rows in each of the eight child tables are exactly those derived from the current record; other launches' rows and the rocket and payload tables are untouched |
| RawLoad.ReprocessKeepsLatest | spacex_pipeline/extract_data.py:209-248 | processing a launch twice leaves the second run's launch row and, in each of the eight child tables, exactly the second run's rows: nothing duplicated, nothing stale |
| RawLoad.LaunchesKeepParentsValid | spacex_pipeline/extract_data.py:190-256 | the whole launch writer, whatever its input, keeps every parent row under its own non-NULL identifier |
| RawLoad.LaunchApplyKeepsParentsValid | spacex_pipeline/extract_data.py:204-235 | one launch step keeps the parent-key invariant |
| RawLoad.ReplaceLaunchKeepsParentsValid | spacex_pipeline/extract_data.py:212-248 | writing a launch under a non-NULL id keeps every parent row under its own identifier |
| ExtractData.RawDatabase.constructor | spacex_pipeline/extract_data.py:259 | a connection from `get_connection()` starts with no uncommitted work |
| ExtractData.RawDatabase.Commit | spacex_pipeline/extract_data.py:144 | `conn.commit()` makes the open transaction's state the committed one |
| ExtractData.RawDatabase.Rollback | spacex_pipeline/extract_data.py:142 | `conn.rollback()` returns the open transaction to the committed state |
| ExtractData.RawDatabase.UpsertRocket | spacex_pipeline/extract_data.py:118-139 | the rocket upsert succeeds iff the id is present, and then sets that id's row |
| ExtractData.RawDatabase.UpsertPayload | spacex_pipeline/extract_data.py:157-181 | the payload upsert succeeds iff the id is present, and then sets that id's row |
| ExtractData.RawDatabase.InsertRockets | spacex_pipeline/extract_data.py:109-145 | an absent or empty list changes nothing; otherwise the new state is the writer loop `Replay`, committed unless an exception escaped |
| ExtractData.RawDatabase.InsertPayloads | spacex_pipeline/extract_data.py:148-187 | the same for payloads |
| ExtractData.RawDatabase.DeleteChildRows | spacex_pipeline/extract_data.py:210 | one DELETE removes the launch's rows from one child table |
| ExtractData.RawDatabase.InsertFailures | spacex_pipeline/extract_data.py:243 | appends one failures row per element, or fails when an element is not an object or the value is not iterable |
| ExtractData.RawDatabase.InsertCores | spacex_pipeline/extract_data.py:244 | appends one cores row per element, or fails likewise |
| ExtractData.RawDatabase.InsertAssocRows | spacex_pipeline/extract_data.py:245-248 | appends one association row per element, or fails when the value is not iterable |
| ExtractData.RawDatabase.ClearLaunch | spacex_pipeline/extract_data.py:209-210 | after the loop over `child_tables`, the launch has no row in any of the eight tables and nothing else has changed |
| ExtractData.RawDatabase.WriteLaunchRow | spacex_pipeline/extract_data.py:212-242 | upserts the launch row, appends the fairings row iff `fairings` is truthy, and appends one links row; fails when fairings, links, patch or reddit has the wrong shape |
| ExtractData.RawDatabase.WriteLaunchLists | spacex_pipeline/extract_data.py:243-248 | appends the rows of the six lists in order, or fails |
| ExtractData.RawDatabase.WriteLaunch | spacex_pipeline/extract_data.py:208-248 | the `try` body for one launch succeeds iff the record flattens, and then yields `ReplaceLaunch` |
| ExtractData.RawDatabase.InsertLaunches | spacex_pipeline/extract_data.py:190-256 | an absent or empty list changes nothing; otherwise the new state is the writer loop `Replay` over launches, committed unless an exception escaped |
| ExtractData.WriteLaunchResult | spacex_pipeline/extract_data.py:209-248 | the delete loop, the row inserts and the list inserts together give `ReplaceLaunch` |
| ExtractData.AppendObjectRows | spacex_pipeline/extract_data.py:243-244 | the loop over a list of records appends one row per element, tagged with the launch id, or stops at the first element that is not an object |
| ExtractData.AppendCells | spacex_pipeline/extract_data.py:245-248 | the loop over a list of ids appends one association row per element, in order |
| TransformData.Fetch | spacex_pipeline/transform_data.py:41 | a cell read into a frame is `None` exactly when it holds SQL NULL or the JSON `null`, and otherwise the decoded value |
| TransformData.LinksSnapshot | spacex_pipeline/transform_data.py:19 | the links frame has one row per links row, in order |
| TransformData.MatchesMember | spacex_pipeline/transform_data.py:27 | the rows joined to one launch are exactly its combinations with links rows whose `launch_id` equals its id |
| TransformData.InnerJoinMember | spacex_pipeline/transform_data.py:27-28 | a fact row exists iff it combines a launch and a links row with `launch.id == links.launch_id`; unmatched launches and unmatched links rows are excluded |
| TransformData.MatchesSnapshot | spacex_pipeline/transform_data.py:27 | joining a launch with the links snapshot gives one fact row per links row stored for that launch |
| TransformData.WrittenLaunchHasOneFactRow | spacex_pipeline/transform_data.py:27-28 | a launch written by the raw load joins to exactly one fact row, carrying its current links columns |
| TransformData.FactData | spacex_pipeline/transform_data.py:10-36 | `None` when a read raises or either snapshot is empty, without looking at links when launches is empty; otherwise the inner join |
| TransformData.DimensionData | spacex_pipeline/transform_data.py:38-57 | `(None, None)` when rockets is empty or a read raises, including a failing payloads read; `(rockets, None)` when payloads is empty; otherwise both frames |
| LoadData.ExecuteValues | spacex_pipeline/load_data.py:44-48 | the insert into a truncated table succeeds iff no key is NULL and no key repeats |
| LoadData.DumpCell | spacex_pipeline/load_data.py:59 | a `None` cell stays `None`; any other value becomes JSON text of the same value |
| LoadData.Dumped | spacex_pipeline/load_data.py:57-59 | in a rockets row the four JSON columns are serialised (`None` stays `None`) and `id`, `cost_per_launch` and `first_flight` pass through unchanged |
| LoadData.DumpCellRoundTrip | spacex_pipeline/load_data.py:57-59 | a JSON column read back and serialised is unchanged, except that the stored text `null` becomes SQL NULL |
| LoadData.DumpFrame | spacex_pipeline/load_data.py:57-61 | the frame keeps its length; row for row the key and the two plain columns are unchanged and each JSON column is serialised, so the key column written is the one read |
| LoadData.DumpBlobColumns | spacex_pipeline/load_data.py:57-59 | the loop over the four columns rewrites the frame to `DumpFrame` |
| LoadData.ReplaceTable | spacex_pipeline/load_data.py:42-51 | an absent or empty frame leaves its table alone; a written frame replaces the table or raises on a key violation |
| LoadData.LoadFails | spacex_pipeline/load_data.py:39-85 | the load fails exactly when some written frame breaks its primary key |
| LoadData.LoadReplaces | spacex_pipeline/load_data.py:42-78 | a written frame's table holds exactly that frame's rows and nothing from before; an absent or empty frame's table is untouched |
| LoadData.LoadIdempotent | spacex_pipeline/load_data.py:44-75 | loading the same frame contents twice leaves the same table contents; this is about frames read afresh, as `main` does on each run, since the source rewrites the caller's rockets frame in place and passing that same frame object again would serialise its JSON columns twice |
| LoadData.LoadKeepsKeyed | spacex_pipeline/load_data.py:44-75 | after a load no table holds a NULL or duplicated key |
| LoadData.AnalyticsDatabase.constructor | spacex_pipeline/load_data.py:90 | a connection from `get_connection()` starts with no uncommitted work |
| LoadData.AnalyticsDatabase.Commit | spacex_pipeline/load_data.py:80 | `conn.commit()` makes the open transaction's state the committed one |
| LoadData.AnalyticsDatabase.Rollback | spacex_pipeline/load_data.py:84 | `conn.rollback()` returns to the committed state |
| LoadData.AnalyticsDatabase.InsertTransformedData | spacex_pipeline/load_data.py:39-85 | success commits exactly `LoadTables`; any failure rolls all three tables back to the committed state and raises |
| LoadData.AnalyticsDatabase.TransformAndLoad | spacex_pipeline/load_data.py:97-104 | the insert is called iff at least one frame is not `None`; otherwise nothing changes |
| LoadData.NothingReadNothingLoaded | spacex_pipeline/load_data.py:101-104 | when the launches and rockets reads fail or are empty, every frame is `None`, so `main` writes nothing |
| LoadData.RocketHeightEndToEnd | spacex_pipeline/load_data.py:57-59 | a rocket height missing or `null` at fetch time is the JSON text `null` in the raw table but SQL NULL in `dim_rockets`; a present height arrives as the same JSON value |

## Left out

- The HTTP client (`spacex_pipeline/api/get_data.py`) is I/O. The fetched lists are parameters (`Option<seq<Json>>`).
- DDL (`extract_create_table`, `create_transformed_tables`) is left out. The schemas are fixed datatypes.
- `ExtractData.RawDatabase.constructor` and `LoadData.AnalyticsDatabase.constructor`: autocommit mode is not modelled. A connection with autocommit on would commit each statement at once, and `RawLoad.ReplayLastBad`'s rollback scope would not hold.
- Connection handling, logging and message text are left out, as is `main` in `extract_data.py`. In `load_data.py`, `main` is modelled only from the transform calls on (lines 97-104).
- Value conversion by PostgreSQL, psycopg2 and pandas is not modelled:
  - timestamps, dates, NUMERIC and REAL;
  - arrays;
  - JSONB normalisation;
  - NaN.

  Cells are opaque values. The only statement failures modelled are NOT NULL and duplicate keys. A type error (a dict bound to a TEXT column, say) is not modelled.
- Floating point is left out. JSON numbers are integers, because no arithmetic is done on them.
- `Values.Iterate`: a non-empty JSON object where a list is expected is reported as an error. Python would iterate its keys in insertion order, which a `map` does not keep.
- `TransformData.FactData`: the `except` around `pd.merge` is not modelled. The merge cannot raise on these two frames, so the model has no path for it.
- `LoadData.AnalyticsDatabase.InsertTransformedData`:
  - The `if col in rockets_df.columns` test is taken as true, because the SELECT always yields those columns.
  - The caller's rockets frame is rewritten in place in the source. The model rewrites a copy, so that aliasing is not captured: calling the insert twice with the same frame object would serialise its JSON columns twice in the source, and `LoadData.LoadIdempotent` speaks of equal frame contents instead.
- `LoadData.ExecuteValues`: the batching of `execute_values` into pages is not modelled. Partial progress is invisible because a failure rolls back the whole transaction.
- Row order of a `SELECT` without `ORDER BY` is not determined by the database. The links snapshot is taken in stored order, and the launch and dimension frames are parameters in any order.
- `ExtractData.RawDatabase.InsertRockets`, `InsertPayloads` and `InsertLaunches`: when an exception escapes, the uncommitted work is left in the open transaction. The caller, `main` in `extract_data.py` (lines 270-275), has no `try` or `finally` around the writers, so the exception leaves `main`: the remaining writers and `conn.close()` (line 280) never run, and the process ends with that transaction uncommitted. `main` itself is not modelled.
- Foreign keys with `ON DELETE CASCADE` never fire, because no path deletes a parent. `TRUNCATE ... RESTART IDENTITY CASCADE` has no dependent tables to reach.
