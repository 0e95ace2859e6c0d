# statusbrew-ig-report-pipeline, modelled in Dafny

The pipeline pulls Instagram reporting data from the Statusbrew API and
upserts it into three BigQuery tables: daily profile metrics, daily post
snapshots and follower demographics. This project models its core and proves
what that core promises:

- **Job runner** (`JobRunner`, module `Runner`, specified by module `Jobs`).
  - Each job works through every configured space in turn. It lists the
    space's profiles and keeps the Instagram ones, resolving each profile's id
    through `id`, `profile_id` and `uid`.
  - It then fetches the insights and turns every returned record into one
    canonical row, using the tolerant `_get` lookup and the `_to_int`,
    `_safe_str` and `_parse_datetime` coercions (module `Normalize`).
  - It upserts all the rows in one call and returns the row count.
  - The runner is a class whose methods run the loops. Each method is proved
    equal to a pure function of `Jobs`. Module `JobLaws` proves what those
    functions promise.
- **Canonical rows** (module `Models`): the three dataclasses and their
  `to_dict`, with the clock reading passed in. Module `RowLaws` proves the
  round trip and the audit-stamp rules.
- **Warehouse side** (modules `BigQuery`, `Merge`).
  - The upsert: skip an empty batch, otherwise load it into a scratch table
    `tmp_<hex>`, MERGE it into the target, then delete the scratch table in a
    `finally`.
  - The MERGE text built from the key, update and insert column lists.
  - The effect of the SQL MERGE statement on a table keyed by its key columns.
  - The BigQuery client is a `Warehouse` object. It holds the target tables,
    the scratch tables and the log of requests. A fault map says which request
    fails and how.
- **Statusbrew client** (module `Client`).
  - `_request`: the bounded retry loop over a server oracle.
  - Envelope unwrapping, the insights body, and the three fetch builders.
- **Settings and secrets** (modules `Config`, `Secrets`): `parse_space_ids`,
  `require_token`, and the resource name `fetch_secret` resolves.

Python values are modelled explicitly (module `PyValues`):
- decoded JSON as an ordered datatype;
- truthiness, `a or b`, `in`, indexing and iteration, with the exceptions
  they raise;
- `int()` on strings, and `str()`/`repr()`.

Modules `Strings` and `Times` model the string and date primitives the code
relies on. Each module says which source file it follows.

Outside collaborators become parameters:
- The Statusbrew server is a function from the requests sent so far to the
  next exchange.
- `utcnow()` is a function of how many times it has been read.
- `dateutil.parser.parse` is a function that may fail.
- The uuid hex is an argument, and "today" in the configured zone is an
  argument.

The model follows the code as written, including where its behaviour may
surprise a reader:
- **Delete failure after a successful MERGE.** The upsert raises, although
  the batch has already landed in the target (`BigQuery.UpsertDeleteFailsAfterMerge`).
  The upsert is therefore not all-or-nothing.
- **Malformed records.** Only `run_profile_daily` drops anything: profiles
  without an id.
  - A post record without `post_id` gets the id `""`.
  - A record or profile without an owner id gets the profile id `"None"`
    (`JobLaws.PostRecordRegular`, `JobLaws.DemographicsIdlessRows`).
- **Empty envelope.** A `{"data": []}` envelope with no truthy alternative is
  returned whole. Iterating it yields the key `"data"`, whose `.get` then
  raises (`Client.UnwrapEmptyEnvelope`).

## Model

| member | source | states |
|---|---|---|
| Strings.Strip | src/statusbrew_pipeline/config.py:47 | `str.strip()` leaves no white space at either end |
| Strings.StripSlice | src/statusbrew_pipeline/config.py:47 | `str.strip()` returns a slice of its input with only white space before and after it |
| Strings.StripPadded | src/statusbrew_pipeline/config.py:47 | white space on either side of an unpadded string is exactly what `str.strip()` removes |
| Strings.RStripChar | src/statusbrew_pipeline/statusbrew_client.py:26 | `rstrip("/")` result is a prefix of the input, does not end in the character, and only that character was removed |
| Strings.Split | src/statusbrew_pipeline/config.py:47 | `split(",")` gives one piece more than there are separators, no piece holds the separator, and joining the pieces with it gives the input back |
| Strings.SplitJoin | src/statusbrew_pipeline/config.py:47 | splitting what was joined by a separator that no part holds gives the parts back |
| Strings.DecimalString | src/statusbrew_pipeline/jobs.py:92 | `str(n)` of an int is non-empty, ends in a digit, starts with a digit or `-` by sign, is `"0"` for zero and has no leading zero otherwise |
| PyValues.SetItem | src/statusbrew_pipeline/statusbrew_client.py:74-77 | after `d[key] = v` the key maps to `v` and every other key keeps its value |
| PyValues.IntOf | src/statusbrew_pipeline/jobs.py:32 | `int(value)` succeeds exactly on ints, bools and parseable strings; a bad string raises `ValueError`, every other failure `TypeError` |
| PyValues.ParseIntRejects | src/statusbrew_pipeline/jobs.py:30-34 | a character other than a digit, `_` or sign left after stripping makes `int()` fail |
| PyValues.ParseDecimalString | src/statusbrew_pipeline/jobs.py:30-34 | `int(str(n)) == n` for every int |
| Normalize.GetFirstHolding | src/statusbrew_pipeline/jobs.py:43-54 | on a record whose `metrics`/`dimensions` are dicts, `_get` returns the value at the first location holding the key, in the order record, metrics, dimensions, post, profile, and `None` when none does |
| Normalize.GetTopLevelWins | src/statusbrew_pipeline/jobs.py:44-45 | a top-level binding wins over every nested one, even a present `None` |
| Normalize.GetUnguardedMetrics | src/statusbrew_pipeline/jobs.py:46 | `metrics` is not type-guarded: a `None` there raises `TypeError` when the key is not at the top level |
| Normalize.GetMetricsListHoldingKey | src/statusbrew_pipeline/jobs.py:46-47 | a `metrics` list containing the key makes `_get` index a list by a string, which raises `TypeError` |
| Normalize.GetSkipsNonDictPost | src/statusbrew_pipeline/jobs.py:50-54 | on a regular record whose `post` is not a dict, `_get` returns the first binding among record, `metrics`, `dimensions` and `profile`, as if `post` were absent |
| Normalize.ToInt | src/statusbrew_pipeline/jobs.py:30-34 | `_to_int` never raises: `Some` exactly when `int()` succeeds, the int itself for an int, `None` for `None`, `""`, lists and dicts |
| Normalize.ToIntDecimal | src/statusbrew_pipeline/jobs.py:30-34 | `_to_int(str(n)) == n` (e.g. `"12"` gives 12) |
| Normalize.ToIntRejects | src/statusbrew_pipeline/jobs.py:30-34 | any string holding a character that is not a digit, a sign, `_` or white space gives `None` |
| Normalize.SafeStr | src/statusbrew_pipeline/jobs.py:37-40 | `_safe_str(None) == ""`, the identity on strings, decimal text on ints |
| Normalize.ParseDatetime | src/statusbrew_pipeline/jobs.py:19-27 | `None` and non-strings give `None`; a string gives whatever the date parser gives, failure being `None` |
| Models.IntCell | src/statusbrew_pipeline/models.py:19-28 | an `Optional[int]` field is stored so that it reads back unchanged |
| Models.TextCell | src/statusbrew_pipeline/models.py:15-18 | a `str` field is stored so that it reads back unchanged |
| Models.OptTimeCell | src/statusbrew_pipeline/models.py:49 | an `Optional[datetime]` field (`post_published_at`) is stored so that it reads back unchanged |
| Models.Stamp | src/statusbrew_pipeline/models.py:35-36 | `field or now`: a provided stamp is kept, a missing one becomes the clock reading |
| RowLaws.ProfileDailyRoundTrip | src/statusbrew_pipeline/models.py:32-37 | reading the `to_dict` row back gives the record with its stamps filled: no field is lost or altered |
| RowLaws.ProfileDailyIdentityCells | src/statusbrew_pipeline/models.py:33 | the row holds `date`, `space_id`, `profile_id` as given |
| RowLaws.ProfileDailyAccountCells | src/statusbrew_pipeline/models.py:33 | the row holds `profile_username` and `platform` as given |
| RowLaws.ProfileDailyGrowthCells | src/statusbrew_pipeline/models.py:33 | the row holds the follower counts as given |
| RowLaws.ProfileDailyReachCells | src/statusbrew_pipeline/models.py:33 | the row holds growth and reach measures as given |
| RowLaws.ProfileDailyViewsCells | src/statusbrew_pipeline/models.py:33 | the row holds paid reach, impressions and profile views as given |
| RowLaws.ProfileDailyStampCells | src/statusbrew_pipeline/models.py:33-36 | the row holds `bio_link_clicks` as given, and `created_at`/`updated_at` are the provided stamps or the clock reading |
| RowLaws.ProfileDailyStamps | src/statusbrew_pipeline/models.py:32-37 | the row has exactly the dataclass's columns; with neither stamp provided, `created_at == updated_at` (one clock read) |
| RowLaws.ProfileDailyStampedStable | src/statusbrew_pipeline/models.py:35-36 | once stamped, a record serialises to the same row at any later clock reading |
| RowLaws.PostSnapshotRoundTrip | src/statusbrew_pipeline/models.py:61-64 | reading the row back gives the record with `created_at` filled |
| RowLaws.PostSnapshotIdentityCells | src/statusbrew_pipeline/models.py:62 | snapshot date, space, profile id and username stored as given |
| RowLaws.PostSnapshotPostCells | src/statusbrew_pipeline/models.py:62 | username, post id and permalink stored as given |
| RowLaws.PostSnapshotPublishedCells | src/statusbrew_pipeline/models.py:62 | post type and `post_published_at` stored as given |
| RowLaws.PostSnapshotReachCells | src/statusbrew_pipeline/models.py:62 | reach, impressions and likes stored as given |
| RowLaws.PostSnapshotEngagementCells | src/statusbrew_pipeline/models.py:62 | comments, shares and saves stored as given |
| RowLaws.PostSnapshotActivityCells | src/statusbrew_pipeline/models.py:62 | follows, activity and clicks stored as given |
| RowLaws.PostSnapshotStampCells | src/statusbrew_pipeline/models.py:63 | `created_at` is the provided stamp or the clock reading |
| RowLaws.PostSnapshotStamps | src/statusbrew_pipeline/models.py:61-64 | only `created_at` is stamped; the row has no `updated_at` |
| RowLaws.PostSnapshotStampedStable | src/statusbrew_pipeline/models.py:63 | once stamped, the row no longer depends on the clock |
| RowLaws.DemographicsRoundTrip | src/statusbrew_pipeline/models.py:80-83 | reading the row back gives the record with `created_at` filled |
| RowLaws.DemographicsIdentityCells | src/statusbrew_pipeline/models.py:81 | snapshot date, space, profile id and username stored as given |
| RowLaws.DemographicsSegmentCells | src/statusbrew_pipeline/models.py:81 | username, age group and gender stored as given |
| RowLaws.DemographicsPlaceCells | src/statusbrew_pipeline/models.py:81 | country and city stored as given |
| RowLaws.DemographicsStampCells | src/statusbrew_pipeline/models.py:81-82 | followers stored as given, and `created_at` is the provided stamp or the clock reading |
| RowLaws.DemographicsStamps | src/statusbrew_pipeline/models.py:80-83 | only `created_at` is stamped; the row has no `updated_at` |
| RowLaws.DemographicsStampedStable | src/statusbrew_pipeline/models.py:82 | once stamped, the row no longer depends on the clock |
| RowLaws.MeasuresDefaultToNone | src/statusbrew_pipeline/models.py:19-30 | measures and stamps not passed to a constructor are `None` |
| Merge.TablePathSplits | src/statusbrew_pipeline/bq.py:35-36 | `table_path` is `project.dataset.table`: splitting it at the dots gives project, dataset, then the table name's pieces |
| Merge.TempTableName | src/statusbrew_pipeline/bq.py:39 | the scratch table's name is `tmp_` followed by the hex |
| Merge.TempTableInDataset | src/statusbrew_pipeline/bq.py:39-40 | the scratch table lives in the target tables' project and dataset |
| Merge.Without | src/statusbrew_pipeline/bq.py:89-93 | the filtered column list holds exactly the columns outside the dropped set |
| Merge.UpdateColumns | src/statusbrew_pipeline/bq.py:60 | a non-empty caller list is used as is; `None` or `[]` falls back to exactly the non-key columns |
| Merge.UpdateColumnsCreatedAt | src/statusbrew_pipeline/bq.py:60 | the jobs' update list (all columns but the keys and `created_at`) never updates `created_at` when non-empty; when a table has no other column it is empty, and the fallback then updates `created_at` |
| Merge.Conditions | src/statusbrew_pipeline/bq.py:59 | one `T.k = S.k` condition per key column, in key order |
| Merge.Assignments | src/statusbrew_pipeline/bq.py:61 | one `col=S.col` assignment per update column, in order |
| Merge.SourceValues | src/statusbrew_pipeline/bq.py:63 | one `S.col` per column, in order |
| Merge.ListItemsJoin | src/statusbrew_pipeline/bq.py:61-63 | a `", "`-joined list of safe items reads back as exactly those items |
| Merge.InsertColumnsRead | src/statusbrew_pipeline/bq.py:62 | the INSERT column list names `all_columns` in order |
| Merge.InsertValuesRead | src/statusbrew_pipeline/bq.py:63 | the VALUES list is `S.col` for each of `all_columns`, in the same order |
| Merge.OnWords | src/statusbrew_pipeline/bq.py:59 | an ON clause has three words per key and `AND` between keys, starting with `T.k = S.k` for the first key |
| Merge.OnClauseWords | src/statusbrew_pipeline/bq.py:59 | the ON clause, split at its blanks, is `T.k`, `=`, `S.k` for every key in order with `AND` between them |
| Merge.UpdateClauseRead | src/statusbrew_pipeline/bq.py:61 | the UPDATE SET list reads back as `col=S.col` for every update column, in order |
| Merge.RenderRead | src/statusbrew_pipeline/bq.py:64-73 | split at its line breaks, the MERGE text has ten lines: the target and the staging table in backticks, the ON clause's words, the update assignments, and the insert columns and values, each reading back as the lists they were built from |
| Merge.RenderReadsBack | src/statusbrew_pipeline/bq.py:59-73 | the query `_merge` sends reads back as the MERGE of `table_path(target)` from `table_path(temp)` on the key columns, setting the resolved update columns and inserting all columns from the staging row |
| Merge.KeyOf | src/statusbrew_pipeline/bq.py:59 | a row's key is its key columns' values in key order |
| Merge.Matched | src/statusbrew_pipeline/bq.py:68-69 | a matched row takes the staging values in the update columns and keeps every other column |
| Merge.Inserted | src/statusbrew_pipeline/bq.py:70-72 | an unmatched staging row is inserted with exactly the insert columns, taken from it |
| Merge.SourceFor | src/statusbrew_pipeline/bq.py:67 | the staging row found for a key carries that key; none is found only when no staging row has it |
| Merge.ApplyAllMerges | src/statusbrew_pipeline/bq.py:64-73 | applying a batch with distinct keys row by row gives the declarative MERGE: matched keys updated, unmatched staging rows inserted, every other row unchanged, none removed |
| Merge.MergeEffectMeaning | src/statusbrew_pipeline/bq.py:64-75 | the MERGE of a batch with distinct keys succeeds and has that meaning |
| Merge.MergedFromUnique | src/statusbrew_pipeline/bq.py:64-73 | the meaning determines the resulting table |
| Merge.MergeIdempotent | src/statusbrew_pipeline/bq.py:64-73 | when every update column is also an insert column, running the same batch a second time changes nothing |
| Merge.MergeKeepsCreatedAt | src/statusbrew_pipeline/bq.py:89-93 | when `created_at` is not an update column, every existing row keeps its `created_at` |
| Merge.MergeKeepsKeys | src/statusbrew_pipeline/bq.py:64-73 | a table whose rows sit under their own keys stays so after a MERGE that inserts its key columns |
| BigQuery.StageRow | src/statusbrew_pipeline/bq.py:41-46 | a loaded row has exactly the schema's columns, NULL where the JSON row lacks one |
| BigQuery.StageRows | src/statusbrew_pipeline/bq.py:46 | the scratch table holds one staged row per given row, in order |
| BigQuery.LoadStep | src/statusbrew_pipeline/bq.py:41-47 | a load is logged; it succeeds exactly when not faulted and every row fits the schema, and then replaces the scratch table (WRITE_TRUNCATE) and touches no target |
| BigQuery.QueryStep | src/statusbrew_pipeline/bq.py:75 | a MERGE is logged; it succeeds exactly when not faulted, both tables exist and the staged keys are distinct, and then only the target changes, to the MERGE's effect |
| BigQuery.DeleteStep | src/statusbrew_pipeline/bq.py:96 | `delete_table(not_found_ok=True)` fails only when the request itself fails, and removes the scratch table otherwise |
| BigQuery.Warehouse.LoadTableFromJson | src/statusbrew_pipeline/bq.py:46-47 | the client's state after a load is the load step's |
| BigQuery.Warehouse.Query | src/statusbrew_pipeline/bq.py:75 | the client's state after a query is the MERGE step's |
| BigQuery.Warehouse.DeleteTable | src/statusbrew_pipeline/bq.py:96 | the client's state after a delete is the delete step's |
| BigQuery.UpsertEmpty | src/statusbrew_pipeline/bq.py:79-81 | an empty batch makes no request and changes nothing |
| BigQuery.UpsertLoadFails | src/statusbrew_pipeline/bq.py:82 | a failed load is the upsert's error and is followed by neither MERGE nor delete |
| BigQuery.UpsertCleansUp | src/statusbrew_pipeline/bq.py:82-96 | after a successful load the requests are exactly load, MERGE, delete of the same scratch table, whether or not the MERGE fails |
| BigQuery.UpsertSucceeds | src/statusbrew_pipeline/bq.py:82-96 | with no fault, an existing target and distinct keys, the upsert succeeds and only the target changes, to the MERGE of the staged batch |
| BigQuery.UpsertDeleteFailsAfterMerge | src/statusbrew_pipeline/bq.py:95-96 | a delete failing after a successful MERGE makes the upsert raise, with the batch already merged |
| BigQuery.UpsertMergeFails | src/statusbrew_pipeline/bq.py:83-96 | a failing MERGE leaves every target unchanged and the upsert fails |
| BigQuery.UpsertDuplicateKeys | src/statusbrew_pipeline/bq.py:84-94 | in this model, a batch in which two rows share a key is refused by the MERGE (BigQuery refuses only such a key that also matches a target row) |
| BigQuery.Warehouse.constructor | src/statusbrew_pipeline/bq.py:33 | a fresh client sees the given target tables, no scratch table and no request yet |
| BigQuery.BigQueryService.constructor | src/statusbrew_pipeline/bq.py:20-33 | the service holds its project, dataset, three table names, their schemas and its client |
| BigQuery.BigQueryService.LoadTempTable | src/statusbrew_pipeline/bq.py:38-49 | returns `tmp_<hex>` after a successful load into the dataset, or the load's error, leaving the client as the load step says |
| BigQuery.BigQueryService.MergeInto | src/statusbrew_pipeline/bq.py:51-76 | sends the built MERGE; the client ends as the MERGE step says |
| BigQuery.BigQueryService.Upsert | src/statusbrew_pipeline/bq.py:78-96 | the outcome and the new warehouse are those of the upsert protocol (empty skip, load, MERGE, delete in `finally`) |
| BigQuery.BigQueryService.UpsertProfileDaily | src/statusbrew_pipeline/bq.py:78-96 | the protocol on the profile-daily table, keys `(date, profile_id)`, updating every other column but `created_at` |
| BigQuery.BigQueryService.UpsertPostSnapshots | src/statusbrew_pipeline/bq.py:98-116 | the protocol on the post table, keys `(snapshot_date, post_id)`, updating every other column but `created_at` |
| BigQuery.BigQueryService.UpsertDemographics | src/statusbrew_pipeline/bq.py:118-137 | the protocol on the demographics table, keyed by profile and segment, updating every other column but `created_at` |
| BigQuery.ProfileDailyKey | src/statusbrew_pipeline/bq.py:87 | a profile-daily row's key is its date and profile id |
| BigQuery.PostSnapshotKey | src/statusbrew_pipeline/bq.py:107 | a post row's key is its snapshot date and post id |
| BigQuery.DemographicsKey | src/statusbrew_pipeline/bq.py:127 | a demographics row's key is snapshot date, profile id, age group, gender, country, city |
| Client.AttemptOf | src/statusbrew_pipeline/statusbrew_client.py:47-53 | no response or a non-2xx status is a retryable `StatusbrewError`; success needs a 2xx status with a JSON body |
| Client.MaxAttempts | src/statusbrew_pipeline/statusbrew_client.py:39 | `stop_after_attempt(retries)`: at least one attempt, exactly `retries` when positive |
| Client.Attempts | src/statusbrew_pipeline/statusbrew_client.py:44-53 | the retry loop sends only copies of its one request, at least one and at most the budget |
| Client.AttemptsFirstSuccess | src/statusbrew_pipeline/statusbrew_client.py:44-50 | after `k` retryable failures within the budget, a success returns its JSON having sent exactly `k + 1` requests |
| Client.AttemptsAllFail | src/statusbrew_pipeline/statusbrew_client.py:37-42 | when every attempt fails, exactly the budget is spent and the last `StatusbrewError` itself is raised |
| Client.AttemptsFatalNotRetried | src/statusbrew_pipeline/statusbrew_client.py:41-53 | an error that is not an `httpx.HTTPError` (a non-JSON body) is raised after one request |
| Client.Unwrap | src/statusbrew_pipeline/statusbrew_client.py:58 | the envelope unwrapping (the same expression ends `insights`, line 81) succeeds exactly on dicts; anything else has no `.get` |
| Client.UnwrapOrder | src/statusbrew_pipeline/statusbrew_client.py:81 | a truthy `data` wins, then a truthy alternative (`rows` here, `profiles` at line 58), then the whole body |
| Client.UnwrapEmptyEnvelope | src/statusbrew_pipeline/statusbrew_client.py:81 | `{"data": []}` comes back whole, and iterating it yields `"data"` |
| Client.StringList | src/statusbrew_pipeline/statusbrew_client.py:70-71 | a list of names becomes a JSON list of the same strings in order |
| Client.InsightsBodyFields | src/statusbrew_pipeline/statusbrew_client.py:69-77 | the body always has `metrics`, `dimensions`, `time_range`; `filters` and `granularity` exactly when truthy |
| Client.SetOptionalMembers | src/statusbrew_pipeline/statusbrew_client.py:74-77 | setting `filters` then `granularity`, each when truthy, appends them in that order |
| Client.BodyBuiltInPlace | src/statusbrew_pipeline/statusbrew_client.py:69-77 | building the dict in place gives the modelled insights body |
| Client.SingleDayQueries | src/statusbrew_pipeline/statusbrew_client.py:100-103 | profile-daily, and demographics at lines 136-137, use `since == until ==` the date and filter on the one profile on Instagram; only profile-daily sets `granularity="day"` |
| Client.PostQueryPassesThrough | src/statusbrew_pipeline/statusbrew_client.py:126-128 | the post fetch passes `since`/`until` and the whole id list through, with no granularity |
| Client.CallSpec | src/statusbrew_pipeline/statusbrew_client.py:44-58 | a call keeps what was sent before and adds at least one and at most the budget of requests |
| Client.StatusbrewClient.constructor | src/statusbrew_pipeline/statusbrew_client.py:19-42 | the base URL is stored with trailing `/` stripped, with the timeout and retry budget, and nothing has been sent |
| Client.StatusbrewClient.Request | src/statusbrew_pipeline/statusbrew_client.py:44-53 | the attempt loop's result and requests are those of the retry specification |
| Client.StatusbrewClient.ListProfiles | src/statusbrew_pipeline/statusbrew_client.py:55-58 | GET of the space's profiles, then the `data`/`profiles` unwrapping |
| Client.StatusbrewClient.Insights | src/statusbrew_pipeline/statusbrew_client.py:60-81 | POST of the insights body built in place, then the `data`/`rows` unwrapping |
| Client.StatusbrewClient.FetchProfileDailyMetrics | src/statusbrew_pipeline/statusbrew_client.py:83-104 | the insights call with the profile-daily query |
| Client.StatusbrewClient.FetchPostSnapshots | src/statusbrew_pipeline/statusbrew_client.py:106-129 | the insights call with the post query |
| Client.StatusbrewClient.FetchFollowerDemographics | src/statusbrew_pipeline/statusbrew_client.py:131-138 | the insights call with the demographics query |
| Client.BaseUrlStripped | src/statusbrew_pipeline/statusbrew_client.py:26 | every trailing `/` of the base URL is dropped and nothing else |
| Config.KeepStripped | src/statusbrew_pipeline/config.py:47 | the comprehension keeps at most as many pieces, none empty or padded |
| Config.KeepStrippedAppend | src/statusbrew_pipeline/config.py:47 | the comprehension works piece by piece in order: two runs of pieces give the first run's ids, then the second's |
| Config.KeepStrippedBlank | src/statusbrew_pipeline/config.py:47 | a piece made only of white space is dropped and changes nothing else |
| Config.KeepStrippedPadded | src/statusbrew_pipeline/config.py:47 | pieces that strip to non-empty ids give exactly those ids, in order |
| Config.ParseSpaceIds | src/statusbrew_pipeline/config.py:43-47 | a list passes through unchanged; a string gives at most commas+1 ids, none empty or padded |
| Config.ParseSpaceIdsPadded | src/statusbrew_pipeline/config.py:47 | ids joined by commas, each with any white space around it, parse back to the same ids |
| Config.KeepStrippedClean | src/statusbrew_pipeline/config.py:47 | clean pieces are all kept, unchanged and in order |
| Config.ParseSpaceIdsJoined | src/statusbrew_pipeline/config.py:47 | clean ids joined by commas parse back to the same ids |
| Config.ParseSpaceIdsExample | tests/test_config.py:4-10 | `"a,b , c"` gives `["a", "b", "c"]` for any one-character ids |
| Config.RequireToken | src/statusbrew_pipeline/config.py:53-59 | the token when it is set and non-empty; otherwise `RuntimeError` |
| Secrets.ResourceName | src/statusbrew_pipeline/secrets.py:10-15 | a name with `/` is used verbatim; otherwise `projects/{p}/secrets/{n}/versions/latest`, or `ValueError` without a project; every resolved name holds `/` |
| Secrets.ResourceNameSplits | src/statusbrew_pipeline/secrets.py:15 | a built resource name splits back into its project and secret |
| Secrets.FetchSecret | src/statusbrew_pipeline/secrets.py:8-17 | a resolution error is raised before any access; otherwise the payload of the resolved name |
| Jobs.DailyRecord | src/statusbrew_pipeline/jobs.py:89-105 | a built metric carries the target date, the space, `str(profile_id)`, platform `instagram` and no stamps |
| Jobs.InstagramIds | src/statusbrew_pipeline/jobs.py:117-121 | succeeds exactly when every profile is a dict, else `AttributeError`; at most one id per profile; no id exactly when no profile is on Instagram |
| Jobs.InstagramIdsAppend | src/statusbrew_pipeline/jobs.py:117-121 | the ids keep the profiles' order: two runs of profiles give the first run's ids, then the second's |
| Jobs.InstagramIdsOne | src/statusbrew_pipeline/jobs.py:117-121 | one profile contributes its resolved id, falsy or not, exactly when it is on Instagram |
| Jobs.PostRecord | src/statusbrew_pipeline/jobs.py:131-154 | a built snapshot carries the snapshot date, the space, the username looked up for its owner, and no stamp |
| Jobs.DemographicsRecord | src/statusbrew_pipeline/jobs.py:172-182 | a built row carries the snapshot date, the space, `str(profile_id)`, the profile's username and no stamp |
| Runner.JobRunner.constructor | src/statusbrew_pipeline/jobs.py:58-68 | the runner holds its settings, client and warehouse service, and no clock reading has been taken |
| Runner.JobRunner.GatherRecords | src/statusbrew_pipeline/jobs.py:88-106 | the record loop appends exactly the rows the specification's loop does, stopping at the first exception |
| Runner.JobRunner.ListSpace | src/statusbrew_pipeline/jobs.py:78-79 | listing a space and iterating the result, as specified |
| Runner.JobRunner.GatherDailyProfile | src/statusbrew_pipeline/jobs.py:80-106 | one profile of run_profile_daily as specified: filter, id check, fetch, one row per record |
| Runner.JobRunner.GatherDailySpace | src/statusbrew_pipeline/jobs.py:78-106 | one space of run_profile_daily as specified |
| Runner.JobRunner.GatherProfileDaily | src/statusbrew_pipeline/jobs.py:77-106 | all configured spaces in order, as specified |
| Runner.JobRunner.RunProfileDaily | src/statusbrew_pipeline/jobs.py:74-109 | result, requests, clock readings and warehouse are those of the job's specification, for the given date or yesterday |
| Runner.JobRunner.GatherPostSpace | src/statusbrew_pipeline/jobs.py:116-155 | one space of run_post_snapshots as specified |
| Runner.JobRunner.GatherPostSnapshots | src/statusbrew_pipeline/jobs.py:115-155 | all configured spaces in order, as specified |
| Runner.JobRunner.RunPostSnapshots | src/statusbrew_pipeline/jobs.py:111-158 | result, requests, clock readings and warehouse are those of the job's specification, for the given date or today |
| Runner.JobRunner.GatherDemographicsProfile | src/statusbrew_pipeline/jobs.py:166-183 | one profile of run_follower_demographics as specified |
| Runner.JobRunner.GatherDemographicsSpace | src/statusbrew_pipeline/jobs.py:164-183 | one space of run_follower_demographics as specified |
| Runner.JobRunner.GatherFollowerDemographics | src/statusbrew_pipeline/jobs.py:163-183 | all configured spaces in order, as specified |
| Runner.JobRunner.RunFollowerDemographics | src/statusbrew_pipeline/jobs.py:160-186 | result, requests, clock readings and warehouse are those of the job's specification, for the given date or today |
| JobLaws.FoldKeeps | src/statusbrew_pipeline/jobs.py:77 | a loop keeps every property of the run that its body keeps |
| JobLaws.FoldIdle | src/statusbrew_pipeline/jobs.py:79-85 | a loop whose body leaves the run alone leaves it alone |
| JobLaws.OneRowPerRecord | src/statusbrew_pipeline/jobs.py:88-106 | when every record converts, one row per record is appended in order, one clock reading each, no request |
| JobLaws.FirstBadRecord | src/statusbrew_pipeline/jobs.py:88-106 | the first record that fails to convert ends the job with its exception; earlier rows stay |
| JobLaws.AddRowKeepsDated | src/statusbrew_pipeline/jobs.py:88-106 | the record loop keeps all rows dated when each built row is |
| JobLaws.DailyRowDated | src/statusbrew_pipeline/jobs.py:89-91 | every profile-daily row has `date` = the target and a configured space |
| JobLaws.DailyProfileKeepsDated | src/statusbrew_pipeline/jobs.py:79-106 | one profile keeps the rows dated |
| JobLaws.DailySpaceKeepsDated | src/statusbrew_pipeline/jobs.py:78-106 | one space keeps the rows dated |
| JobLaws.DailyRowsDated | src/statusbrew_pipeline/jobs.py:75-107 | every row handed to the upsert is for the target date and a configured space |
| JobLaws.PostRowDated | src/statusbrew_pipeline/jobs.py:134-136 | every post row has `snapshot_date` = the snapshot and a configured space |
| JobLaws.PostProfilesKeepDated | src/statusbrew_pipeline/jobs.py:117-155 | one space after its listing keeps the rows dated |
| JobLaws.PostSpaceKeepsDated | src/statusbrew_pipeline/jobs.py:116-155 | one space keeps the rows dated |
| JobLaws.PostRowsDated | src/statusbrew_pipeline/jobs.py:112-156 | every row handed to the upsert is for the snapshot date and a configured space |
| JobLaws.DemographicsRowDated | src/statusbrew_pipeline/jobs.py:172-174 | every demographics row has `snapshot_date` = the snapshot and a configured space |
| JobLaws.DemographicsProfileKeepsDated | src/statusbrew_pipeline/jobs.py:165-183 | one profile keeps the rows dated |
| JobLaws.DemographicsSpaceKeepsDated | src/statusbrew_pipeline/jobs.py:164-183 | one space keeps the rows dated |
| JobLaws.DemographicsRowsDated | src/statusbrew_pipeline/jobs.py:161-184 | every row handed to the upsert is for the snapshot date and a configured space |
| JobLaws.AddRowKeepsSent | src/statusbrew_pipeline/jobs.py:88-106 | building rows sends no request |
| JobLaws.InsightsAsks | src/statusbrew_pipeline/statusbrew_client.py:60-81 | one insights call sends only its own request, once per attempt |
| JobLaws.DailyProfileRequests | src/statusbrew_pipeline/jobs.py:80-87 | a profile on Instagram (by `platform`, else `platform_type`) with a truthy id gets exactly its own one-day request; any other profile is skipped with no request and no row |
| JobLaws.DemographicsProfileRequests | src/statusbrew_pipeline/jobs.py:166-170 | every Instagram profile is fetched, even one without an id, whose request then carries `None` |
| JobLaws.DemographicsIdlessRows | src/statusbrew_pipeline/jobs.py:168-175 | rows of a profile without an id say `"None"` in `profile_id` |
| JobLaws.PostProfilesRequests | src/statusbrew_pipeline/jobs.py:117-129 | a space with Instagram profiles gets one request covering all their ids over `since..snapshot`; one without gets none |
| JobLaws.ListingRequests | src/statusbrew_pipeline/jobs.py:78 | listing a space sends only the profiles request and adds no row |
| JobLaws.DailySpaceNothingKept | src/statusbrew_pipeline/jobs.py:79-85 | a space with no kept profile adds no row and no request beyond its listing |
| JobLaws.GetEitherRegular | src/statusbrew_pipeline/jobs.py:99 | `_get(a) or _get(b)` on a regular record: the first when truthy, else the second |
| JobLaws.DailyRecordRegular | src/statusbrew_pipeline/jobs.py:89-105 | a regular record always converts; each measure is `_to_int` of its key, `reach_total` falls through a falsy `reach`, the record's username is read only when the profile had none |
| JobLaws.PostRecordRegular | src/statusbrew_pipeline/jobs.py:131-154 | a regular record always converts; owner, post id, permalink, type, published time, likes and saves each fall through a falsy first key; a missing post id is `""`; reach, impressions, comments, shares, follows, profile activity and bio-link clicks are `_to_int` of their one key |
| JobLaws.DemographicsRecordRegular | src/statusbrew_pipeline/jobs.py:172-182 | a regular record always converts; segments are `_safe_str` of age, gender, country, city |
| JobLaws.DailyBuildRegular | src/statusbrew_pipeline/jobs.py:89-105 | every regular record becomes a row |
| JobLaws.DailyProfileOneRowPerRecord | src/statusbrew_pipeline/jobs.py:86-106 | a kept profile whose insights are regular records adds one row per record and raises nothing |
| JobLaws.PostBuildRegular | src/statusbrew_pipeline/jobs.py:131-154 | every regular record becomes a row |
| JobLaws.PostProfilesOneRowPerRecord | src/statusbrew_pipeline/jobs.py:129-155 | a space whose post insights are regular records adds one row per record: no record is dropped |
| JobLaws.PostProfilesFetched | src/statusbrew_pipeline/jobs.py:117-130 | after a successful fetch the space's rows come from the record loop alone |
| JobLaws.DemographicsBuildRegular | src/statusbrew_pipeline/jobs.py:172-182 | every regular record becomes a row |
| JobLaws.DemographicsProfileOneRowPerRecord | src/statusbrew_pipeline/jobs.py:168-183 | an Instagram profile whose insights are regular records adds one row per record |
| JobLaws.ProfileDailyOutcome | src/statusbrew_pipeline/jobs.py:107-109 | an exception while gathering is the job's error and the warehouse is untouched; with no rows the warehouse is untouched and `row_count` is 0; a result is `{"row_count": len(rows), "date": target}` |
| JobLaws.PostSnapshotsOutcome | src/statusbrew_pipeline/jobs.py:156-158 | the same, under `snapshot_date` |
| JobLaws.DemographicsOutcome | src/statusbrew_pipeline/jobs.py:184-186 | the same, under `snapshot_date` |

## Left out

- The Slack notifier (`slack.py`, and the `notify` calls at the end of each job): an outbound webhook whose errors are swallowed, so it cannot change a job's outcome.
- `main.py`: the web routes, wiring and token bootstrapping.
- Logging calls.
- Real HTTP: the `httpx` transport, the Bearer and content-type headers, the timeout, `close()`. The server is a function from the requests sent so far to the next exchange.
- The tenacity wait schedule and its sleeps; only the attempt count and the retry classification are modelled.
- The BigQuery client's internals, load jobs and `uuid4`: the warehouse is a store with a fault map, and the hex is an argument.
- `recent_posts`: server-side SQL over `CURRENT_DATE`, outside the jobs.
- The schemas in `table_schemas`, which are not part of this model: the column lists are parameters of `BigQueryService`.
- `datetime.now`/`utcnow`, `ZoneInfo` and `Settings.tz`: "today" in the zone is an argument, and `utcnow()` is a function of its reading number.
- `dateutil.parser.parse`: a function that may fail; `_parse_datetime`'s `datetime` branch cannot be reached from decoded JSON.
- pydantic and `.env` loading in `Settings` and `get_settings`; only `parse_space_ids` and `require_token` are modelled.
- The Secret Manager client and the UTF-8 decode of the payload: `access` is a parameter of `FetchSecret`.
- Concurrent job runs.
- Floats in decoded JSON.
- BigQuery.QueryStep: a staging batch in which two rows share a key is refused outright, whereas BigQuery refuses only when such a key also matches a target row; the jobs' batches are not shown to have distinct keys.
- Merge.MergeEffectMeaning: SQL `NULL` keys are compared as ordinary values; the jobs never build a NULL key column.
- PyValues.ParseInt: only the ASCII digits `0`-`9` are digits; Python's `int()` also accepts other Unicode decimal digits (category Nd), such as Arabic-Indic digits.
- PyValues.ParseIntRejects: a non-ASCII decimal digit counts as a rejecting character here, although Python's `int()` accepts it.
- Normalize.ToIntRejects: likewise, a string holding a non-ASCII decimal digit is stated to give `None`, although Python would parse it.
- PyValues.EscapeChar: only the C0 controls and DEL are hex-escaped; Python's `repr` also escapes other non-printable characters, such as `\x85`, `\xa0` and `\u2028`.
- Times.MinusDays: dates are unbounded ordinals; Python raises `OverflowError` when `date - timedelta` leaves years 1 to 9999, which `run_post_snapshots` (src/statusbrew_pipeline/jobs.py:113) could only meet for an absurd `recent_post_lookback_days`.
- BigQuery.UpsertDuplicateKeys: the model refuses every batch with a repeated key; BigQuery refuses only a repeated key that matches a target row, so a batch whose repeated keys are all new is refused here but would be inserted twice by BigQuery.
- Merge.RenderReadsBack: covers non-empty key, update and insert lists of one-word column names; with an empty update list the text ends `UPDATE SET` with nothing after it, which BigQuery would reject, and the model does not parse or reject SQL text.
