/** The warehouse side of the pipeline (src/statusbrew_pipeline/bq.py): the
    BigQuery client as the service sees it, and `BigQueryService`, whose upserts
    load a batch into a scratch table, MERGE it into the target table and drop
    the scratch table in a `finally`. */
module BigQuery {
  import opened PyValues
  import opened Models
  import opened Merge
  import opened Times

  /** A request the service sends to the warehouse. */
  datatype Call =
    | LoadCall(table: string, rows: seq<Row>)
    | QueryCall(text: string)
    | DeleteCall(table: string)

  /** What the warehouse holds: the target tables and the loaded scratch tables
      by path, and the requests it has received. */
  datatype Store = Store(targets: map<string, Table>, staged: map<string, seq<Row>>, calls: seq<Call>)

  /** A request's outcome and the warehouse after it. */
  datatype Step = Step(outcome: Outcome, store: Store)

  /** Every row has only columns of the schema. */
  predicate FitsSchema(rows: seq<Row>, schema: seq<Column>) {
    forall i, c :: 0 <= i < |rows| && c in rows[i] ==> c in schema
  }

  /** A loaded row: each schema column, NULL where the row lacks it. */
  function StageRow(row: Row, schema: seq<Column>): (r: Row)
    ensures forall c :: c in r <==> c in schema
    ensures forall c :: c in schema ==> r[c] == Get(row, c)
  {
    map c | c in schema :: Get(row, c)
  }

  function StageRows(rows: seq<Row>, schema: seq<Column>): (r: seq<Row>)
    ensures |r| == |rows| && forall i :: 0 <= i < |rows| ==> r[i] == StageRow(rows[i], schema)
  {
    if rows == [] then [] else [StageRow(rows[0], schema)] + StageRows(rows[1..], schema)
  }

  /** `load_table_from_json(rows, table, schema, WRITE_TRUNCATE).result()`: the
      n-th request fails when `faults` names it, a row with a column outside the
      schema is refused, and otherwise the table is replaced by the rows. */
  function LoadStep(st: Store, faults: map<nat, Fault>, table: string, rows: seq<Row>, schema: seq<Column>): (s: Step)
    ensures s.store.calls == st.calls + [LoadCall(table, rows)] && s.store.targets == st.targets
    ensures s.outcome.Pass? <==> |st.calls| !in faults && FitsSchema(rows, schema)
    ensures s.outcome.Pass? ==> s.store.staged == st.staged[table := StageRows(rows, schema)]
    ensures s.outcome.Fail? ==> s.store.staged == st.staged
  {
    var logged := st.(calls := st.calls + [LoadCall(table, rows)]);
    if |st.calls| in faults then Step(Fail(BigQueryError(faults[|st.calls|])), logged)
    else if !FitsSchema(rows, schema) then Step(Fail(BigQueryError(SchemaMismatch)), logged)
    else Step(Pass, logged.(staged := st.staged[table := StageRows(rows, schema)]))
  }

  /** `query(Render(m)).result()`: the MERGE, run against the named tables. */
  function QueryStep(st: Store, faults: map<nat, Fault>, m: MergeStatement): (s: Step)
    ensures s.store.calls == st.calls + [QueryCall(Render(m))] && s.store.staged == st.staged
    ensures s.outcome.Pass? <==>
      && |st.calls| !in faults && m.target in st.targets && m.source in st.staged
      && DistinctKeys(st.staged[m.source], m.on)
    ensures s.outcome.Pass? ==>
      s.store.targets == st.targets[m.target := MergeEffect(st.targets[m.target], st.staged[m.source], m).value]
    ensures s.outcome.Fail? ==> s.store.targets == st.targets
  {
    var logged := st.(calls := st.calls + [QueryCall(Render(m))]);
    if |st.calls| in faults then Step(Fail(BigQueryError(faults[|st.calls|])), logged)
    else if m.target !in st.targets then Step(Fail(BigQueryError(NotFound(m.target))), logged)
    else if m.source !in st.staged then Step(Fail(BigQueryError(NotFound(m.source))), logged)
    else match MergeEffect(st.targets[m.target], st.staged[m.source], m)
      case Ok(t) => Step(Pass, logged.(targets := st.targets[m.target := t]))
      case Err(e) => Step(Fail(e), logged)
  }

  /** `delete_table(table, not_found_ok=True)`: only a failure of the request
      itself is an error. */
  function DeleteStep(st: Store, faults: map<nat, Fault>, table: string): (s: Step)
    ensures s.store.calls == st.calls + [DeleteCall(table)] && s.store.targets == st.targets
    ensures s.outcome.Pass? <==> |st.calls| !in faults
    ensures s.outcome.Pass? ==> s.store.staged == st.staged - {table}
    ensures s.outcome.Fail? ==> s.store.staged == st.staged
  {
    var logged := st.(calls := st.calls + [DeleteCall(table)]);
    if |st.calls| in faults then Step(Fail(BigQueryError(faults[|st.calls|])), logged)
    else Step(Pass, logged.(staged := st.staged - {table}))
  }

  /** The BigQuery client, as a store that changes with each request. The
      `faults` say which requests, counted from the first, fail and how. */
  class Warehouse {
    var targets: map<string, Table>
    var staged: map<string, seq<Row>>
    var calls: seq<Call>
    const faults: map<nat, Fault>

    constructor(targets: map<string, Table>, faults: map<nat, Fault>)
      ensures Snapshot() == Store(targets, map[], []) && this.faults == faults
    {
      this.targets := targets;
      this.staged := map[];
      this.calls := [];
      this.faults := faults;
    }

    function Snapshot(): Store
      reads this
    {
      Store(targets, staged, calls)
    }

    method LoadTableFromJson(rows: seq<Row>, table: string, schema: seq<Column>) returns (r: Outcome)
      modifies this
      ensures Step(r, Snapshot()) == LoadStep(old(Snapshot()), faults, table, rows, schema)
    {
      var s := LoadStep(Snapshot(), faults, table, rows, schema);
      targets, staged, calls := s.store.targets, s.store.staged, s.store.calls;
      r := s.outcome;
    }

    method Query(m: MergeStatement) returns (r: Outcome)
      modifies this
      ensures Step(r, Snapshot()) == QueryStep(old(Snapshot()), faults, m)
    {
      var s := QueryStep(Snapshot(), faults, m);
      targets, staged, calls := s.store.targets, s.store.staged, s.store.calls;
      r := s.outcome;
    }

    method DeleteTable(table: string) returns (r: Outcome)
      modifies this
      ensures Step(r, Snapshot()) == DeleteStep(old(Snapshot()), faults, table)
    {
      var s := DeleteStep(Snapshot(), faults, table);
      targets, staged, calls := s.store.targets, s.store.staged, s.store.calls;
      r := s.outcome;
    }
  }

  // ---------------------------------------------------------------------------
  // The staging upsert protocol

  /** What the three `upsert_*` do with a batch: nothing for an empty one;
      otherwise load it into `tmp_<hex>`, and only if that worked, MERGE it
      into the target and then delete the scratch table whatever the MERGE did.
      An error of the delete replaces the MERGE's outcome, as an exception
      raised in `finally` does. */
  function UpsertSpec(st: Store, faults: map<nat, Fault>, project: string, dataset: string, target: string,
                      rows: seq<Row>, schema: seq<Column>, keys: seq<Column>, update: seq<Column>, hex: string): Step
  {
    if rows == [] then Step(Pass, st)
    else
      var temp := TempTableName(hex);
      var load := LoadStep(st, faults, TablePath(project, dataset, temp), rows, schema);
      if load.outcome.Fail? then load
      else
        var merge := QueryStep(load.store, faults, BuildMerge(project, dataset, target, temp, keys, schema, Some(update)));
        var delete := DeleteStep(merge.store, faults, TablePath(project, dataset, temp));
        Step(if delete.outcome.Fail? then delete.outcome else merge.outcome, delete.store)
  }

  /** An empty batch makes no request and changes nothing. */
  lemma UpsertEmpty(st: Store, faults: map<nat, Fault>, project: string, dataset: string, target: string,
                    schema: seq<Column>, keys: seq<Column>, update: seq<Column>, hex: string)
    ensures UpsertSpec(st, faults, project, dataset, target, [], schema, keys, update, hex) == Step(Pass, st)
  {
  }

  /** A failed load is the upsert's error, and nothing follows it: no MERGE and
      no delete. */
  lemma UpsertLoadFails(st: Store, faults: map<nat, Fault>, project: string, dataset: string, target: string,
                        rows: seq<Row>, schema: seq<Column>, keys: seq<Column>, update: seq<Column>, hex: string)
    requires rows != [] && (|st.calls| in faults || !FitsSchema(rows, schema))
    ensures var s := UpsertSpec(st, faults, project, dataset, target, rows, schema, keys, update, hex);
      && s.outcome.Fail?
      && s.store == st.(calls := st.calls + [LoadCall(TablePath(project, dataset, TempTableName(hex)), rows)])
  {
  }

  /** After a successful load the requests are exactly load, MERGE, delete of the
      same scratch table, whether or not the MERGE fails. */
  lemma UpsertCleansUp(st: Store, faults: map<nat, Fault>, project: string, dataset: string, target: string,
                       rows: seq<Row>, schema: seq<Column>, keys: seq<Column>, update: seq<Column>, hex: string)
    requires rows != [] && |st.calls| !in faults && FitsSchema(rows, schema)
    ensures var temp := TablePath(project, dataset, TempTableName(hex));
      var s := UpsertSpec(st, faults, project, dataset, target, rows, schema, keys, update, hex);
      && s.store.calls == st.calls + [LoadCall(temp, rows),
           QueryCall(Render(BuildMerge(project, dataset, target, TempTableName(hex), keys, schema, Some(update)))),
           DeleteCall(temp)]
      && (|st.calls| + 2 !in faults ==> s.store.staged == st.staged - {temp})
  {
  }

  /** When no request fails, the target exists and the batch's keys are
      distinct, the upsert succeeds and the target is the MERGE of the loaded
      batch; no other target changes. */
  lemma UpsertSucceeds(st: Store, faults: map<nat, Fault>, project: string, dataset: string, target: string,
                       rows: seq<Row>, schema: seq<Column>, keys: seq<Column>, update: seq<Column>, hex: string)
    requires rows != [] && FitsSchema(rows, schema)
    requires |st.calls| !in faults && |st.calls| + 1 !in faults && |st.calls| + 2 !in faults
    requires TablePath(project, dataset, target) in st.targets
    requires DistinctKeys(StageRows(rows, schema), keys)
    ensures var path := TablePath(project, dataset, target);
      var m := BuildMerge(project, dataset, target, TempTableName(hex), keys, schema, Some(update));
      var s := UpsertSpec(st, faults, project, dataset, target, rows, schema, keys, update, hex);
      && s.outcome == Pass
      && s.store.targets == st.targets[path := MergeEffect(st.targets[path], StageRows(rows, schema), m).value]
  {
    var temp := TempTableName(hex);
    var load := LoadStep(st, faults, TablePath(project, dataset, temp), rows, schema);
    var m := BuildMerge(project, dataset, target, temp, keys, schema, Some(update));
    assert load.outcome == Pass && load.store.staged[m.source] == StageRows(rows, schema);
    var merge := QueryStep(load.store, faults, m);
    assert merge.outcome == Pass;
  }

  /** A delete that fails after a successful MERGE makes the upsert raise,
      although the batch has already landed in the target. */
  lemma UpsertDeleteFailsAfterMerge(st: Store, faults: map<nat, Fault>, project: string, dataset: string, target: string,
                                    rows: seq<Row>, schema: seq<Column>, keys: seq<Column>, update: seq<Column>, hex: string)
    requires rows != [] && FitsSchema(rows, schema)
    requires |st.calls| !in faults && |st.calls| + 1 !in faults && |st.calls| + 2 in faults
    requires TablePath(project, dataset, target) in st.targets
    requires DistinctKeys(StageRows(rows, schema), keys)
    ensures var path := TablePath(project, dataset, target);
      var m := BuildMerge(project, dataset, target, TempTableName(hex), keys, schema, Some(update));
      var s := UpsertSpec(st, faults, project, dataset, target, rows, schema, keys, update, hex);
      && s.outcome == Fail(BigQueryError(faults[|st.calls| + 2]))
      && s.store.targets[path] == MergeEffect(st.targets[path], StageRows(rows, schema), m).value
  {
    var temp := TempTableName(hex);
    var load := LoadStep(st, faults, TablePath(project, dataset, temp), rows, schema);
    var m := BuildMerge(project, dataset, target, temp, keys, schema, Some(update));
    assert load.outcome == Pass && load.store.staged[m.source] == StageRows(rows, schema);
    var merge := QueryStep(load.store, faults, m);
    assert merge.outcome == Pass;
  }

  /** A MERGE that fails leaves every target as it was, and the upsert fails. */
  lemma UpsertMergeFails(st: Store, faults: map<nat, Fault>, project: string, dataset: string, target: string,
                         rows: seq<Row>, schema: seq<Column>, keys: seq<Column>, update: seq<Column>, hex: string)
    requires rows != [] && FitsSchema(rows, schema) && |st.calls| !in faults
    requires |st.calls| + 1 in faults || !DistinctKeys(StageRows(rows, schema), keys)
    ensures var s := UpsertSpec(st, faults, project, dataset, target, rows, schema, keys, update, hex);
      s.outcome.Fail? && s.store.targets == st.targets
  {
  }

  /** A batch in which two rows share a key is refused by the MERGE, and that
      refusal is the upsert's error when the delete works. */
  lemma UpsertDuplicateKeys(st: Store, faults: map<nat, Fault>, project: string, dataset: string, target: string,
                            rows: seq<Row>, schema: seq<Column>, keys: seq<Column>, update: seq<Column>, hex: string)
    requires rows != [] && FitsSchema(rows, schema)
    requires |st.calls| !in faults && |st.calls| + 1 !in faults && |st.calls| + 2 !in faults
    requires TablePath(project, dataset, target) in st.targets
    requires !DistinctKeys(StageRows(rows, schema), keys)
    ensures UpsertSpec(st, faults, project, dataset, target, rows, schema, keys, update, hex).outcome
         == Fail(BigQueryError(DuplicateSourceKey))
  {
    var temp := TempTableName(hex);
    var load := LoadStep(st, faults, TablePath(project, dataset, temp), rows, schema);
    var m := BuildMerge(project, dataset, target, temp, keys, schema, Some(update));
    assert load.store.staged[m.source] == StageRows(rows, schema);
    var merge := QueryStep(load.store, faults, m);
    assert merge.outcome == Fail(BigQueryError(DuplicateSourceKey));
  }

  /** `BigQueryService`: one dataset of one project, its three target tables and
      their schemas, over a client. */
  class BigQueryService {
    const project: string
    const dataset: string
    const tableProfileDaily: string
    const tablePostSnapshots: string
    const tableDemographics: string
    /** The column lists of `table_schemas`, in schema order. */
    const profileDailySchema: seq<Column>
    const postSnapshotSchema: seq<Column>
    const demographicsSchema: seq<Column>
    const client: Warehouse

    constructor(project: string, dataset: string, tableProfileDaily: string, tablePostSnapshots: string,
                tableDemographics: string, profileDailySchema: seq<Column>, postSnapshotSchema: seq<Column>,
                demographicsSchema: seq<Column>, client: Warehouse)
      ensures this.project == project && this.dataset == dataset
      ensures this.tableProfileDaily == tableProfileDaily && this.tablePostSnapshots == tablePostSnapshots
      ensures this.tableDemographics == tableDemographics
      ensures this.profileDailySchema == profileDailySchema && this.postSnapshotSchema == postSnapshotSchema
      ensures this.demographicsSchema == demographicsSchema && this.client == client
    {
      this.project := project;
      this.dataset := dataset;
      this.tableProfileDaily := tableProfileDaily;
      this.tablePostSnapshots := tablePostSnapshots;
      this.tableDemographics := tableDemographics;
      this.profileDailySchema := profileDailySchema;
      this.postSnapshotSchema := postSnapshotSchema;
      this.demographicsSchema := demographicsSchema;
      this.client := client;
    }

    /** `_load_temp_table(rows, schema)`: the scratch table's name, or the load's error. */
    method LoadTempTable(rows: seq<Row>, schema: seq<Column>, hex: string) returns (r: Result<string>)
      modifies client
      ensures var s := LoadStep(old(client.Snapshot()), client.faults, TablePath(project, dataset, TempTableName(hex)), rows, schema);
        && client.Snapshot() == s.store
        && (if s.outcome.Pass? then r == Ok(TempTableName(hex)) else r == Err(s.outcome.error))
    {
      var name := TempTableName(hex);
      var loaded := client.LoadTableFromJson(rows, TablePath(project, dataset, name), schema);
      if loaded.Fail? {
        return Err(loaded.error);
      }
      return Ok(name);
    }

    /** `_merge(target, temp, keys, all_columns, update_columns)`. */
    method MergeInto(target: string, temp: string, keys: seq<Column>, all: seq<Column>, update: Option<seq<Column>>)
      returns (r: Outcome)
      modifies client
      ensures Step(r, client.Snapshot())
           == QueryStep(old(client.Snapshot()), client.faults, BuildMerge(project, dataset, target, temp, keys, all, update))
    {
      r := client.Query(BuildMerge(project, dataset, target, temp, keys, all, update));
    }

    /** The body the three `upsert_*` share. */
    method Upsert(target: string, rows: seq<Row>, schema: seq<Column>, keys: seq<Column>, hex: string)
      returns (r: Outcome)
      modifies client
      ensures Step(r, client.Snapshot()) == UpsertSpec(old(client.Snapshot()), client.faults, project, dataset,
        target, rows, schema, keys, Without(schema, (set c | c in keys) + {CreatedAt}), hex)
    {
      if rows == [] {
        return Pass;
      }
      var temp := LoadTempTable(rows, schema, hex);
      if temp.Err? {
        return Fail(temp.error);
      }
      var merged := MergeInto(target, temp.value, keys, schema, Some(Without(schema, (set c | c in keys) + {CreatedAt})));
      var deleted := client.DeleteTable(TablePath(project, dataset, temp.value));
      r := if deleted.Fail? then deleted else merged;
    }

    /** `upsert_profile_daily(rows)`: keyed by `(date, profile_id)`. */
    method UpsertProfileDaily(rows: seq<Row>, hex: string) returns (r: Outcome)
      modifies client
      ensures Step(r, client.Snapshot()) == UpsertSpec(old(client.Snapshot()), client.faults, project, dataset,
        tableProfileDaily, rows, profileDailySchema, ProfileDailyKeys,
        Without(profileDailySchema, {MetricDate, ProfileId, CreatedAt}), hex)
    {
      assert (set c | c in ProfileDailyKeys) + {CreatedAt} == {MetricDate, ProfileId, CreatedAt};
      r := Upsert(tableProfileDaily, rows, profileDailySchema, ProfileDailyKeys, hex);
    }

    /** `upsert_post_snapshots(rows)`: keyed by `(snapshot_date, post_id)`. */
    method UpsertPostSnapshots(rows: seq<Row>, hex: string) returns (r: Outcome)
      modifies client
      ensures Step(r, client.Snapshot()) == UpsertSpec(old(client.Snapshot()), client.faults, project, dataset,
        tablePostSnapshots, rows, postSnapshotSchema, PostSnapshotKeys,
        Without(postSnapshotSchema, {SnapshotDate, PostId, CreatedAt}), hex)
    {
      assert (set c | c in PostSnapshotKeys) + {CreatedAt} == {SnapshotDate, PostId, CreatedAt};
      r := Upsert(tablePostSnapshots, rows, postSnapshotSchema, PostSnapshotKeys, hex);
    }

    /** `upsert_demographics(rows)`: keyed by the profile and the audience segment. */
    method UpsertDemographics(rows: seq<Row>, hex: string) returns (r: Outcome)
      modifies client
      ensures Step(r, client.Snapshot()) == UpsertSpec(old(client.Snapshot()), client.faults, project, dataset,
        tableDemographics, rows, demographicsSchema, DemographicsKeys,
        Without(demographicsSchema, {SnapshotDate, ProfileId, AgeGroup, Gender, Country, City, CreatedAt}), hex)
    {
      assert (set c | c in DemographicsKeys) + {CreatedAt}
          == {SnapshotDate, ProfileId, AgeGroup, Gender, Country, City, CreatedAt};
      r := Upsert(tableDemographics, rows, demographicsSchema, DemographicsKeys, hex);
    }
  }

  /** The natural keys of the three targets. */
  const ProfileDailyKeys: seq<Column> := [MetricDate, ProfileId]
  const PostSnapshotKeys: seq<Column> := [SnapshotDate, PostId]
  const DemographicsKeys: seq<Column> := [SnapshotDate, ProfileId, AgeGroup, Gender, Country, City]

  /** A `ProfileDailyMetric` row's key is its date and profile id. */
  lemma ProfileDailyKey(m: ProfileDailyMetric, now: DateTime)
    ensures KeyOf(m.ToDict(now), ProfileDailyKeys) == [DateCell(m.date), TextCell(m.profileId)]
  {
  }

  /** A `PostDailySnapshot` row's key is its snapshot date and post id. */
  lemma PostSnapshotKey(p: PostDailySnapshot, now: DateTime)
    ensures KeyOf(p.ToDict(now), PostSnapshotKeys) == [DateCell(p.snapshotDate), TextCell(p.postId)]
  {
  }

  /** A `FollowerDemographics` row's key is its snapshot date, profile id and segment. */
  lemma DemographicsKey(d: FollowerDemographics, now: DateTime)
    ensures KeyOf(d.ToDict(now), DemographicsKeys)
         == [DateCell(d.snapshotDate), TextCell(d.profileId), TextCell(d.ageGroup), TextCell(d.gender),
             TextCell(d.country), TextCell(d.city)]
  {
  }
}
