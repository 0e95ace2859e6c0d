/** What the three jobs of src/statusbrew_pipeline/jobs.py promise, stated
    about the functions of module `Jobs`: one row per record, stamped with
    consecutive clock readings; which profiles are skipped and which are
    fetched, and with which request; the target date on every row; and the
    warehouse left alone when gathering raises. */
module JobLaws {
  import opened PyValues
  import opened Times
  import opened Models
  import opened Normalize
  import opened BigQuery
  import opened Client
  import opened Jobs
  import opened RowLaws

  // ---------------------------------------------------------------------------
  // Loops

  /** A loop keeps every property of the run that its body keeps. */
  lemma {:induction false} FoldKeeps<T>(run: Run, step: (Run, T) -> Run, xs: seq<T>, inv: Run -> bool)
    requires inv(run)
    requires forall r: Run, x: T | x in xs && inv(r) :: inv(step(r, x))
    ensures inv(Fold(run, step, xs))
    decreases |xs|
  {
    if xs != [] && run.failure.None? {
      assert xs[0] in xs;
      forall r: Run, x: T | x in xs[1..] && inv(r)
        ensures inv(step(r, x))
      {
        assert x in xs;
      }
      FoldKeeps(step(run, xs[0]), step, xs[1..], inv);
    }
  }

  /** A loop whose body leaves the run as it is leaves it as it is. */
  lemma {:induction false} FoldIdle<T>(run: Run, step: (Run, T) -> Run, xs: seq<T>)
    requires forall x | x in xs :: step(run, x) == run
    ensures Fold(run, step, xs) == run
    decreases |xs|
  {
    if xs != [] && run.failure.None? {
      assert xs[0] in xs;
      FoldIdle(run, step, xs[1..]);
    }
  }

  /** `for record in records: rows.append(...)` when every record converts:
      one row per record, in order, the i-th stamped with the i-th clock
      reading after the loop starts, and no request sent. */
  lemma {:induction false} OneRowPerRecord(run: Run, build: (Json, nat) -> Result<Row>, records: seq<Json>)
    requires run.failure.None?
    requires forall i :: 0 <= i < |records| ==> build(records[i], run.ticks + i).Ok?
    ensures var r := Fold(run, AddRow(build), records);
      && r.failure.None? && r.sent == run.sent && r.ticks == run.ticks + |records|
      && |r.rows| == |run.rows| + |records| && r.rows[..|run.rows|] == run.rows
      && forall i :: 0 <= i < |records| ==> build(records[i], run.ticks + i) == Ok(r.rows[|run.rows| + i])
    decreases |records|
  {
    if records != [] {
      var next := AddRow(build)(run, records[0]);
      assert build(records[0], run.ticks).Ok?;
      assert next == Emit(run, build(records[0], run.ticks).value);
      forall i | 0 <= i < |records[1..]|
        ensures build(records[1..][i], next.ticks + i).Ok?
      {
        assert records[1..][i] == records[i + 1];
      }
      OneRowPerRecord(next, build, records[1..]);
      var r := Fold(next, AddRow(build), records[1..]);
      assert r == Fold(run, AddRow(build), records);
      forall i | 0 <= i < |records|
        ensures build(records[i], run.ticks + i) == Ok(r.rows[|run.rows| + i])
      {
        if i > 0 {
          assert records[1..][i - 1] == records[i];
        }
      }
    }
  }

  /** The first record that does not convert ends the loop with its
      exception; the rows of the records before it stay appended. */
  lemma {:induction false} FirstBadRecord(run: Run, build: (Json, nat) -> Result<Row>, records: seq<Json>, k: nat)
    requires run.failure.None? && k < |records|
    requires forall i :: 0 <= i < k ==> build(records[i], run.ticks + i).Ok?
    requires build(records[k], run.ticks + k).Err?
    ensures var r := Fold(run, AddRow(build), records);
      && r.failure == Some(build(records[k], run.ticks + k).error) && r.sent == run.sent
      && r.ticks == run.ticks + k && |r.rows| == |run.rows| + k && r.rows[..|run.rows|] == run.rows
    decreases k
  {
    var next := AddRow(build)(run, records[0]);
    if k == 0 {
      assert Fold(run, AddRow(build), records) == next;
    } else {
      assert build(records[0], run.ticks).Ok?;
      forall i | 0 <= i < k - 1
        ensures build(records[1..][i], next.ticks + i).Ok?
      {
        assert records[1..][i] == records[i + 1];
      }
      assert records[1..][k - 1] == records[k];
      FirstBadRecord(next, build, records[1..], k - 1);
    }
  }

  // ---------------------------------------------------------------------------
  // Every row is for the job's date and one of the configured spaces

  /** A row whose date column `col` holds `d` and whose space is configured. */
  predicate RowDated(row: Row, col: Column, d: Date, spaces: seq<string>) {
    DateAt(row, col) == Some(d) && TextAt(row, SpaceId).Some? && TextAt(row, SpaceId).value in spaces
  }

  predicate RowsDated(run: Run, col: Column, d: Date, spaces: seq<string>) {
    forall j :: 0 <= j < |run.rows| ==> RowDated(run.rows[j], col, d, spaces)
  }

  /** The record loop keeps the rows dated when every row `build` makes is. */
  lemma AddRowKeepsDated(run: Run, build: (Json, nat) -> Result<Row>, records: seq<Json>,
                         col: Column, d: Date, spaces: seq<string>)
    requires RowsDated(run, col, d, spaces)
    requires forall x, t | x in records && build(x, t).Ok? :: RowDated(build(x, t).value, col, d, spaces)
    ensures RowsDated(Fold(run, AddRow(build), records), col, d, spaces)
  {
    var inv := (r: Run) => RowsDated(r, col, d, spaces);
    forall r: Run, x: Json | x in records && inv(r)
      ensures inv(AddRow(build)(r, x))
    {
      var built := build(x, r.ticks);
      if built.Ok? {
        assert AddRow(build)(r, x) == Emit(r, built.value);
        EmitKeepsDated(r, built.value, col, d, spaces);
      } else {
        assert AddRow(build)(r, x).rows == r.rows;
      }
    }
    FoldKeeps(run, AddRow(build), records, inv);
  }

  lemma EmitKeepsDated(run: Run, row: Row, col: Column, d: Date, spaces: seq<string>)
    requires RowsDated(run, col, d, spaces) && RowDated(row, col, d, spaces)
    ensures RowsDated(Emit(run, row), col, d, spaces)
  {
    var rows := Emit(run, row).rows;
    forall j | 0 <= j < |rows|
      ensures RowDated(rows[j], col, d, spaces)
    {
      if j < |run.rows| {
        assert rows[j] == run.rows[j];
      }
    }
  }

  /** run_profile_daily: every row has `date` = the target and a configured space. */
  lemma DailyRowDated(env: Env, ctx: DailyContext, spaces: seq<string>)
    requires ctx.space in spaces
    ensures forall x: Json, t: nat | DailyBuild(env, ctx)(x, t).Ok? ::
      RowDated(DailyBuild(env, ctx)(x, t).value, MetricDate, ctx.target, spaces)
  {
    forall x, t | DailyBuild(env, ctx)(x, t).Ok?
      ensures RowDated(DailyBuild(env, ctx)(x, t).value, MetricDate, ctx.target, spaces)
    {
      var m := DailyRecord(ctx.target, ctx.space, ctx.profileId, ctx.username, x).value;
      ProfileDailyIdentityCells(m, env.clock(t));
    }
  }

  lemma DailyProfileKeepsDated(run: Run, env: Env, target: Date, space: string, profile: Json, spaces: seq<string>)
    requires space in spaces && RowsDated(run, MetricDate, target, spaces)
    ensures RowsDated(DailyProfile(run, env, target, space, profile), MetricDate, target, spaces)
  {
    if profile.JObj? && OnInstagram(profile.members) && Truthy(IdOf(profile.members)) {
      var ms := profile.members;
      var f := InsightsSpec(env.server, run.sent, env.retries, space, ProfileDailyQuery(IdOf(ms), target));
      if f.result.Ok? && Iterate(f.result.value).Ok? {
        var ctx := DailyContext(target, space, IdOf(ms), DailyProfileName(ms));
        DailyRowDated(env, ctx, spaces);
        AddRowKeepsDated(run.(sent := f.sent), DailyBuild(env, ctx), Iterate(f.result.value).value,
                         MetricDate, target, spaces);
      }
    }
  }

  lemma DailySpaceKeepsDated(run: Run, env: Env, target: Date, space: string, spaces: seq<string>)
    requires space in spaces && RowsDated(run, MetricDate, target, spaces)
    ensures RowsDated(DailySpace(run, env, target, space), MetricDate, target, spaces)
  {
    var (listed, profiles) := ListedProfiles(run, env, space);
    var inv := (r: Run) => RowsDated(r, MetricDate, target, spaces);
    forall r: Run, p: Json | p in profiles && inv(r)
      ensures inv(DailyProfileStep(env, target, space)(r, p))
    {
      DailyProfileKeepsDated(r, env, target, space, p, spaces);
    }
    FoldKeeps(listed, DailyProfileStep(env, target, space), profiles, inv);
  }

  /** run_profile_daily: every row gathered, the rows the upsert is given, is
      for the target day and one of the configured spaces. */
  lemma DailyRowsDated(env: Env, spaces: seq<string>, sent: seq<HttpRequest>, ticks: nat, target: Date)
    ensures RowsDated(Fold(Run([], sent, ticks, None), DailySpaceStep(env, target), spaces), MetricDate, target, spaces)
  {
    var inv := (r: Run) => RowsDated(r, MetricDate, target, spaces);
    forall r: Run, space: string | space in spaces && inv(r)
      ensures inv(DailySpaceStep(env, target)(r, space))
    {
      DailySpaceKeepsDated(r, env, target, space, spaces);
    }
    FoldKeeps(Run([], sent, ticks, None), DailySpaceStep(env, target), spaces, inv);
  }

  /** run_post_snapshots: every row has `snapshot_date` = the snapshot and a configured space. */
  lemma PostRowDated(env: Env, ctx: PostContext, spaces: seq<string>)
    requires ctx.space in spaces
    ensures forall x: Json, t: nat | PostBuild(env, ctx)(x, t).Ok? ::
      RowDated(PostBuild(env, ctx)(x, t).value, SnapshotDate, ctx.snapshot, spaces)
  {
    forall x, t | PostBuild(env, ctx)(x, t).Ok?
      ensures RowDated(PostBuild(env, ctx)(x, t).value, SnapshotDate, ctx.snapshot, spaces)
    {
      var m := PostRecord(ctx, env.parse, x).value;
      PostSnapshotIdentityCells(m, env.clock(t));
    }
  }

  lemma PostProfilesKeepDated(listed: Run, env: Env, snapshot: Date, since: Date, space: string, profiles: seq<Json>,
                              spaces: seq<string>)
    requires space in spaces && RowsDated(listed, SnapshotDate, snapshot, spaces)
    ensures RowsDated(PostProfiles(listed, env, snapshot, since, space, profiles), SnapshotDate, snapshot, spaces)
  {
    if InstagramIds(profiles).Ok? && ProfileMap(profiles).Ok? && InstagramIds(profiles).value != [] {
      var ids := InstagramIds(profiles).value;
      var f := InsightsSpec(env.server, listed.sent, env.retries, space, PostSnapshotsQuery(ids, since, snapshot));
      if f.result.Ok? && Iterate(f.result.value).Ok? {
        var ctx := PostContext(snapshot, space, ProfileMap(profiles).value);
        PostRowDated(env, ctx, spaces);
        AddRowKeepsDated(listed.(sent := f.sent), PostBuild(env, ctx), Iterate(f.result.value).value,
                         SnapshotDate, snapshot, spaces);
      }
    }
  }

  lemma PostSpaceKeepsDated(run: Run, env: Env, snapshot: Date, since: Date, space: string, spaces: seq<string>)
    requires space in spaces && RowsDated(run, SnapshotDate, snapshot, spaces)
    ensures RowsDated(PostSpace(run, env, snapshot, since, space), SnapshotDate, snapshot, spaces)
  {
    var (listed, profiles) := ListedProfiles(run, env, space);
    if listed.failure.None? {
      PostProfilesKeepDated(listed, env, snapshot, since, space, profiles, spaces);
    }
  }

  lemma PostRowsDated(env: Env, spaces: seq<string>, sent: seq<HttpRequest>, ticks: nat, snapshot: Date, since: Date)
    ensures RowsDated(Fold(Run([], sent, ticks, None), PostSpaceStep(env, snapshot, since), spaces),
                      SnapshotDate, snapshot, spaces)
  {
    var inv := (r: Run) => RowsDated(r, SnapshotDate, snapshot, spaces);
    forall r: Run, space: string | space in spaces && inv(r)
      ensures inv(PostSpaceStep(env, snapshot, since)(r, space))
    {
      PostSpaceKeepsDated(r, env, snapshot, since, space, spaces);
    }
    FoldKeeps(Run([], sent, ticks, None), PostSpaceStep(env, snapshot, since), spaces, inv);
  }

  /** run_follower_demographics: every row has `snapshot_date` = the snapshot and a configured space. */
  lemma DemographicsRowDated(env: Env, ctx: DemographicsContext, spaces: seq<string>)
    requires ctx.space in spaces
    ensures forall x: Json, t: nat | DemographicsBuild(env, ctx)(x, t).Ok? ::
      RowDated(DemographicsBuild(env, ctx)(x, t).value, SnapshotDate, ctx.snapshot, spaces)
  {
    forall x, t | DemographicsBuild(env, ctx)(x, t).Ok?
      ensures RowDated(DemographicsBuild(env, ctx)(x, t).value, SnapshotDate, ctx.snapshot, spaces)
    {
      var m := DemographicsRecord(ctx.snapshot, ctx.space, ctx.profileId, ctx.username, x).value;
      DemographicsIdentityCells(m, env.clock(t));
    }
  }

  lemma DemographicsProfileKeepsDated(run: Run, env: Env, snapshot: Date, space: string, profile: Json,
                                      spaces: seq<string>)
    requires space in spaces && RowsDated(run, SnapshotDate, snapshot, spaces)
    ensures RowsDated(DemographicsProfile(run, env, snapshot, space, profile), SnapshotDate, snapshot, spaces)
  {
    if profile.JObj? && OnInstagram(profile.members) {
      var ms := profile.members;
      var f := InsightsSpec(env.server, run.sent, env.retries, space, DemographicsQuery(IdOf(ms), snapshot));
      if f.result.Ok? && Iterate(f.result.value).Ok? {
        var ctx := DemographicsContext(snapshot, space, IdOf(ms), DemographicsProfileName(ms));
        DemographicsRowDated(env, ctx, spaces);
        AddRowKeepsDated(run.(sent := f.sent), DemographicsBuild(env, ctx), Iterate(f.result.value).value,
                         SnapshotDate, snapshot, spaces);
      }
    }
  }

  lemma DemographicsSpaceKeepsDated(run: Run, env: Env, snapshot: Date, space: string, spaces: seq<string>)
    requires space in spaces && RowsDated(run, SnapshotDate, snapshot, spaces)
    ensures RowsDated(DemographicsSpace(run, env, snapshot, space), SnapshotDate, snapshot, spaces)
  {
    var (listed, profiles) := ListedProfiles(run, env, space);
    var inv := (r: Run) => RowsDated(r, SnapshotDate, snapshot, spaces);
    forall r: Run, p: Json | p in profiles && inv(r)
      ensures inv(DemographicsProfileStep(env, snapshot, space)(r, p))
    {
      DemographicsProfileKeepsDated(r, env, snapshot, space, p, spaces);
    }
    FoldKeeps(listed, DemographicsProfileStep(env, snapshot, space), profiles, inv);
  }

  lemma DemographicsRowsDated(env: Env, spaces: seq<string>, sent: seq<HttpRequest>, ticks: nat, snapshot: Date)
    ensures RowsDated(Fold(Run([], sent, ticks, None), DemographicsSpaceStep(env, snapshot), spaces),
                      SnapshotDate, snapshot, spaces)
  {
    var inv := (r: Run) => RowsDated(r, SnapshotDate, snapshot, spaces);
    forall r: Run, space: string | space in spaces && inv(r)
      ensures inv(DemographicsSpaceStep(env, snapshot)(r, space))
    {
      DemographicsSpaceKeepsDated(r, env, snapshot, space, spaces);
    }
    FoldKeeps(Run([], sent, ticks, None), DemographicsSpaceStep(env, snapshot), spaces, inv);
  }

  // ---------------------------------------------------------------------------
  // Which profiles are fetched, and with which request

  /** Building rows sends no request. */
  lemma AddRowKeepsSent(run: Run, build: (Json, nat) -> Result<Row>, records: seq<Json>)
    ensures Fold(run, AddRow(build), records).sent == run.sent
  {
    var inv := (r: Run) => r.sent == run.sent;
    forall r: Run, x: Json | x in records && inv(r)
      ensures inv(AddRow(build)(r, x))
    {
      var built := build(x, r.ticks);
      if built.Ok? {
        assert AddRow(build)(r, x) == Emit(r, built.value);
      } else {
        assert AddRow(build)(r, x) == Raise(r, built.error);
      }
    }
    FoldKeeps(run, AddRow(build), records, inv);
  }

  /** The requests one insights call adds: the same request, once per
      attempt, at least once and at most the retry budget. */
  predicate AsksOnly(before: seq<HttpRequest>, after: seq<HttpRequest>, req: HttpRequest, retries: int) {
    && |before| < |after| <= |before| + MaxAttempts(retries)
    && after == before + Repeat(req, |after| - |before|)
  }

  /** One insights call asks only its own request. */
  lemma InsightsAsks(server: seq<HttpRequest> -> Exchange, sent: seq<HttpRequest>, retries: int,
                     space: string, q: InsightsQuery)
    ensures AsksOnly(sent, InsightsSpec(server, sent, retries, space, q).sent, InsightsRequest(space, q), retries)
  {
  }

  /** run_profile_daily, one profile: a profile on Instagram with a truthy id
      gets exactly the insights request for its id and the target day (once
      per attempt); any other profile is skipped without a request. */
  lemma DailyProfileRequests(run: Run, env: Env, target: Date, space: string, ms: seq<Member>)
    requires run.failure.None?
    ensures var r := DailyProfile(run, env, target, space, JObj(ms));
      && (OnInstagram(ms) && Truthy(IdOf(ms)) ==>
            AsksOnly(run.sent, r.sent, InsightsRequest(space, ProfileDailyQuery(IdOf(ms), target)), env.retries))
      && (!(OnInstagram(ms) && Truthy(IdOf(ms))) ==> r == run)
  {
    if OnInstagram(ms) && Truthy(IdOf(ms)) {
      var f := InsightsSpec(env.server, run.sent, env.retries, space, ProfileDailyQuery(IdOf(ms), target));
      InsightsAsks(env.server, run.sent, env.retries, space, ProfileDailyQuery(IdOf(ms), target));
      if f.result.Ok? && Iterate(f.result.value).Ok? {
        var ctx := DailyContext(target, space, IdOf(ms), DailyProfileName(ms));
        AddRowKeepsSent(run.(sent := f.sent), DailyBuild(env, ctx), Iterate(f.result.value).value);
      }
    }
  }

  /** run_follower_demographics, one profile: every Instagram profile is
      fetched, even one without `id`, `profile_id` and `uid`, whose request
      then carries `None` as the profile id. */
  lemma DemographicsProfileRequests(run: Run, env: Env, snapshot: Date, space: string, ms: seq<Member>)
    requires run.failure.None?
    ensures var r := DemographicsProfile(run, env, snapshot, space, JObj(ms));
      && (OnInstagram(ms) ==>
            AsksOnly(run.sent, r.sent, InsightsRequest(space, DemographicsQuery(IdOf(ms), snapshot)), env.retries))
      && (!OnInstagram(ms) ==> r == run)
    ensures Lookup(ms, "id").None? && Lookup(ms, "profile_id").None? && Lookup(ms, "uid").None? ==> IdOf(ms) == JNull
  {
    if OnInstagram(ms) {
      var f := InsightsSpec(env.server, run.sent, env.retries, space, DemographicsQuery(IdOf(ms), snapshot));
      InsightsAsks(env.server, run.sent, env.retries, space, DemographicsQuery(IdOf(ms), snapshot));
      if f.result.Ok? && Iterate(f.result.value).Ok? {
        var ctx := DemographicsContext(snapshot, space, IdOf(ms), DemographicsProfileName(ms));
        AddRowKeepsSent(run.(sent := f.sent), DemographicsBuild(env, ctx), Iterate(f.result.value).value);
      }
    }
  }

  /** run_follower_demographics: the rows of a profile without an id say
      `"None"` in `profile_id`. */
  lemma DemographicsIdlessRows(env: Env, ctx: DemographicsContext, record: Json, tick: nat)
    requires ctx.profileId == JNull
    ensures var built := DemographicsRow(env, ctx, record, tick);
      built.Ok? ==> TextAt(built.value, ProfileId) == Some("None")
  {
    var built := DemographicsRow(env, ctx, record, tick);
    if built.Ok? {
      var m := DemographicsRecord(ctx.snapshot, ctx.space, ctx.profileId, ctx.username, record).value;
      DemographicsIdentityCells(m, env.clock(tick));
    }
  }

  /** run_post_snapshots, one space after its listing: one insights request
      covers the ids of all its Instagram profiles (once per attempt), and a
      space without Instagram profiles gets none. */
  lemma PostProfilesRequests(listed: Run, env: Env, snapshot: Date, since: Date, space: string, profiles: seq<Json>)
    requires listed.failure.None? && InstagramIds(profiles).Ok? && ProfileMap(profiles).Ok?
    ensures var r := PostProfiles(listed, env, snapshot, since, space, profiles);
      var ids := InstagramIds(profiles).value;
      && (ids == [] ==> r == listed)
      && (ids != [] ==> AsksOnly(listed.sent, r.sent, InsightsRequest(space, PostSnapshotsQuery(ids, since, snapshot)),
                                 env.retries))
  {
    var ids := InstagramIds(profiles).value;
    if ids != [] {
      var f := InsightsSpec(env.server, listed.sent, env.retries, space, PostSnapshotsQuery(ids, since, snapshot));
      InsightsAsks(env.server, listed.sent, env.retries, space, PostSnapshotsQuery(ids, since, snapshot));
      if f.result.Ok? && Iterate(f.result.value).Ok? {
        var ctx := PostContext(snapshot, space, ProfileMap(profiles).value);
        AddRowKeepsSent(listed.(sent := f.sent), PostBuild(env, ctx), Iterate(f.result.value).value);
      }
    }
  }

  /** Listing a space sends the profiles request (once per attempt) and
      nothing else, and adds no row. */
  lemma ListingRequests(run: Run, env: Env, space: string)
    ensures var (listed, _) := ListedProfiles(run, env, space);
      && AsksOnly(run.sent, listed.sent, ProfilesRequest(space), env.retries)
      && listed.rows == run.rows && listed.ticks == run.ticks
  {
  }

  /** run_profile_daily, one space: when none of its profiles is an Instagram
      profile with an id, the space adds no row and no request beyond the listing. */
  lemma DailySpaceNothingKept(run: Run, env: Env, target: Date, space: string)
    requires var (_, profiles) := ListedProfiles(run, env, space);
      forall p | p in profiles :: p.JObj? && !(OnInstagram(p.members) && Truthy(IdOf(p.members)))
    ensures DailySpace(run, env, target, space) == ListedProfiles(run, env, space).0
  {
    var (listed, profiles) := ListedProfiles(run, env, space);
    forall p | p in profiles
      ensures DailyProfileStep(env, target, space)(listed, p) == listed
    {
      if listed.failure.None? {
        DailyProfileRequests(listed, env, target, space, p.members);
      }
    }
    FoldIdle(listed, DailyProfileStep(env, target, space), profiles);
  }

  // ---------------------------------------------------------------------------
  // Records: what each column is read from

  /** What `_get(record, key)` returns on a regular dict record. */
  function Found(ms: seq<Member>, key: string): Json {
    FirstHolding(Locations(ms), key)
  }

  /** What `_get(record, a) or _get(record, b)` returns on a regular dict record. */
  function FoundEither(ms: seq<Member>, a: string, b: string): Json {
    if Truthy(Found(ms, a)) then Found(ms, a) else Found(ms, b)
  }

  lemma GetEitherRegular(ms: seq<Member>, a: string, b: string)
    requires Regular(ms)
    ensures GetEither(JObj(ms), a, b) == Ok(FoundEither(ms, a, b))
  {
    GetFirstHolding(ms, a);
    GetFirstHolding(ms, b);
  }

  /** run_profile_daily: a regular dict record always converts; the
      `reach_total` column is the record's `reach`, or its `reach_total` when
      `reach` is falsy; the record's `profile_username` is read only when the
      profile had no username. */
  lemma DailyRecordRegular(target: Date, space: string, profileId: Json, username: Json, ms: seq<Member>)
    requires Regular(ms)
    ensures var r := DailyRecord(target, space, profileId, username, JObj(ms));
      && r.Ok?
      && r.value.profileUsername
         == (if Truthy(username) then username else JStr(Str(Or(Found(ms, "profile_username"), JStr("")))))
      && r.value.followers == ToInt(Found(ms, "followers"))
      && r.value.followersGained == ToInt(Found(ms, "followers_gained"))
      && r.value.unfollowers == ToInt(Found(ms, "unfollowers"))
      && r.value.actualGrowth == ToInt(Found(ms, "actual_growth"))
      && r.value.reachTotal == ToInt(FoundEither(ms, "reach", "reach_total"))
      && r.value.reachOrganic == ToInt(Found(ms, "reach_from_organic"))
      && r.value.reachPaid == ToInt(Found(ms, "reach_from_paid"))
      && r.value.impressions == ToInt(Found(ms, "impressions"))
      && r.value.profileViews == ToInt(Found(ms, "profile_views"))
      && r.value.bioLinkClicks == ToInt(Found(ms, "bio_link_clicks"))
  {
    GetFirstHolding(ms, "profile_username");
    GetFirstHolding(ms, "followers");
    GetFirstHolding(ms, "followers_gained");
    GetFirstHolding(ms, "unfollowers");
    GetFirstHolding(ms, "actual_growth");
    GetEitherRegular(ms, "reach", "reach_total");
    GetFirstHolding(ms, "reach_from_organic");
    GetFirstHolding(ms, "reach_from_paid");
    GetFirstHolding(ms, "impressions");
    GetFirstHolding(ms, "profile_views");
    GetFirstHolding(ms, "bio_link_clicks");
  }

  /** run_post_snapshots: a regular dict record always converts; its owner is
      `profile_id` or else `profile`, rendered with `str` (`"None"` when both
      are missing), and each `or` pair falls back to its second key. */
  lemma PostRecordRegular(ctx: PostContext, parse: string -> Option<DateTime>, ms: seq<Member>)
    requires Regular(ms)
    ensures var r := PostRecord(ctx, parse, JObj(ms));
      && r.Ok?
      && r.value.profileId == Str(FoundEither(ms, "profile_id", "profile"))
      && r.value.postId == SafeStr(FoundEither(ms, "post_id", "post"))
      && r.value.postPermalink == SafeStr(FoundEither(ms, "post_permalink", "permalink"))
      && r.value.postType == SafeStr(FoundEither(ms, "post_type", "type"))
      && r.value.postPublishedAt == ParseDatetime(FoundEither(ms, "post_published_at", "post_created_at"), parse)
      && r.value.reachTotal == ToInt(Found(ms, "post_reach"))
      && r.value.impressionsTotal == ToInt(Found(ms, "post_impressions"))
      && r.value.likes == ToInt(FoundEither(ms, "post_reactions", "post_likes"))
      && r.value.comments == ToInt(Found(ms, "post_comments"))
      && r.value.shares == ToInt(Found(ms, "post_shares"))
      && r.value.saves == ToInt(FoundEither(ms, "post_saved", "post_saves"))
      && r.value.follows == ToInt(Found(ms, "post_follows"))
      && r.value.profileActivityTotal == ToInt(Found(ms, "post_profile_activity_total"))
      && r.value.bioLinkClicks == ToInt(Found(ms, "post_profile_activity_bio_link_clicked"))
  {
    GetEitherRegular(ms, "profile_id", "profile");
    GetEitherRegular(ms, "post_id", "post");
    GetEitherRegular(ms, "post_permalink", "permalink");
    GetEitherRegular(ms, "post_type", "type");
    GetEitherRegular(ms, "post_published_at", "post_created_at");
    GetFirstHolding(ms, "post_reach");
    GetFirstHolding(ms, "post_impressions");
    GetEitherRegular(ms, "post_reactions", "post_likes");
    GetFirstHolding(ms, "post_comments");
    GetFirstHolding(ms, "post_shares");
    GetEitherRegular(ms, "post_saved", "post_saves");
    GetFirstHolding(ms, "post_follows");
    GetFirstHolding(ms, "post_profile_activity_total");
    GetFirstHolding(ms, "post_profile_activity_bio_link_clicked");
  }

  /** run_follower_demographics: a regular dict record always converts; the
      segment columns are `_safe_str` of `age`, `gender`, `country`, `city`. */
  lemma DemographicsRecordRegular(snapshot: Date, space: string, profileId: Json, username: Json, ms: seq<Member>)
    requires Regular(ms)
    ensures var r := DemographicsRecord(snapshot, space, profileId, username, JObj(ms));
      && r.Ok?
      && r.value.ageGroup == SafeStr(Found(ms, "age"))
      && r.value.gender == SafeStr(Found(ms, "gender"))
      && r.value.country == SafeStr(Found(ms, "country"))
      && r.value.city == SafeStr(Found(ms, "city"))
      && r.value.followers == ToInt(Found(ms, "followers"))
  {
    GetFirstHolding(ms, "age");
    GetFirstHolding(ms, "gender");
    GetFirstHolding(ms, "country");
    GetFirstHolding(ms, "city");
    GetFirstHolding(ms, "followers");
  }

  // ---------------------------------------------------------------------------
  // One row per record, per profile

  /** A list of regular dict records. */
  predicate RegularRecords(records: seq<Json>) {
    forall x | x in records :: x.JObj? && Regular(x.members)
  }

  /** A regular dict record always becomes a row. */
  lemma DailyBuildRegular(env: Env, ctx: DailyContext, records: seq<Json>, tick: nat)
    requires RegularRecords(records)
    ensures forall i :: 0 <= i < |records| ==> DailyBuild(env, ctx)(records[i], tick + i).Ok?
  {
    forall i | 0 <= i < |records|
      ensures DailyBuild(env, ctx)(records[i], tick + i).Ok?
    {
      var x := records[i];
      assert x in records;
      DailyRecordRegular(ctx.target, ctx.space, ctx.profileId, ctx.username, x.members);
    }
  }

  /** run_profile_daily, one kept profile whose insights are a list of regular
      dict records: one row per record, nothing raised. */
  lemma DailyProfileOneRowPerRecord(run: Run, env: Env, target: Date, space: string, ms: seq<Member>, records: seq<Json>)
    requires run.failure.None? && OnInstagram(ms) && Truthy(IdOf(ms))
    requires InsightsSpec(env.server, run.sent, env.retries, space, ProfileDailyQuery(IdOf(ms), target)).result
          == Ok(JList(records))
    requires RegularRecords(records)
    ensures var r := DailyProfile(run, env, target, space, JObj(ms));
      r.failure.None? && |r.rows| == |run.rows| + |records| && r.ticks == run.ticks + |records|
  {
    var f := InsightsSpec(env.server, run.sent, env.retries, space, ProfileDailyQuery(IdOf(ms), target));
    var ctx := DailyContext(target, space, IdOf(ms), DailyProfileName(ms));
    var build := DailyBuild(env, ctx);
    var fetched := run.(sent := f.sent);
    DailyBuildRegular(env, ctx, records, fetched.ticks);
    OneRowPerRecord(fetched, build, records);
  }

  /** A regular dict record always becomes a row. */
  lemma PostBuildRegular(env: Env, ctx: PostContext, records: seq<Json>, tick: nat)
    requires RegularRecords(records)
    ensures forall i :: 0 <= i < |records| ==> PostBuild(env, ctx)(records[i], tick + i).Ok?
  {
    forall i | 0 <= i < |records|
      ensures PostBuild(env, ctx)(records[i], tick + i).Ok?
    {
      var x := records[i];
      assert x in records;
      PostRecordRegular(ctx, env.parse, x.members);
    }
  }

  /** run_post_snapshots, one space whose post insights are a list of
      regular dict records: one row per record, nothing raised. */
  lemma PostProfilesOneRowPerRecord(listed: Run, env: Env, snapshot: Date, since: Date, space: string,
                                    profiles: seq<Json>, records: seq<Json>)
    requires listed.failure.None? && InstagramIds(profiles).Ok? && ProfileMap(profiles).Ok?
    requires InstagramIds(profiles).value != []
    requires InsightsSpec(env.server, listed.sent, env.retries, space,
                          PostSnapshotsQuery(InstagramIds(profiles).value, since, snapshot)).result == Ok(JList(records))
    requires RegularRecords(records)
    ensures var r := PostProfiles(listed, env, snapshot, since, space, profiles);
      r.failure.None? && |r.rows| == |listed.rows| + |records| && r.ticks == listed.ticks + |records|
  {
    var f := InsightsSpec(env.server, listed.sent, env.retries, space,
                          PostSnapshotsQuery(InstagramIds(profiles).value, since, snapshot));
    var ctx := PostContext(snapshot, space, ProfileMap(profiles).value);
    var fetched := listed.(sent := f.sent);
    var fold := Fold(fetched, AddRow(PostBuild(env, ctx)), records);
    assert fold.failure.None? && |fold.rows| == |listed.rows| + |records| && fold.ticks == listed.ticks + |records| by {
      PostBuildRegular(env, ctx, records, fetched.ticks);
      OneRowPerRecord(fetched, PostBuild(env, ctx), records);
    }
    PostProfilesFetched(listed, env, snapshot, since, space, profiles, records);
  }

  lemma PostProfilesFetched(listed: Run, env: Env, snapshot: Date, since: Date, space: string,
                            profiles: seq<Json>, records: seq<Json>)
    requires InstagramIds(profiles).Ok? && ProfileMap(profiles).Ok? && InstagramIds(profiles).value != []
    requires InsightsSpec(env.server, listed.sent, env.retries, space,
                          PostSnapshotsQuery(InstagramIds(profiles).value, since, snapshot)).result == Ok(JList(records))
    ensures PostProfiles(listed, env, snapshot, since, space, profiles)
         == Fold(listed.(sent := InsightsSpec(env.server, listed.sent, env.retries, space,
                                              PostSnapshotsQuery(InstagramIds(profiles).value, since, snapshot)).sent),
                 AddRow(PostBuild(env, PostContext(snapshot, space, ProfileMap(profiles).value))), records)
  {
  }

  /** A regular dict record always becomes a row. */
  lemma DemographicsBuildRegular(env: Env, ctx: DemographicsContext, records: seq<Json>, tick: nat)
    requires RegularRecords(records)
    ensures forall i :: 0 <= i < |records| ==> DemographicsBuild(env, ctx)(records[i], tick + i).Ok?
  {
    forall i | 0 <= i < |records|
      ensures DemographicsBuild(env, ctx)(records[i], tick + i).Ok?
    {
      var x := records[i];
      assert x in records;
      DemographicsRecordRegular(ctx.snapshot, ctx.space, ctx.profileId, ctx.username, x.members);
    }
  }

  lemma DemographicsProfileOneRowPerRecord(run: Run, env: Env, snapshot: Date, space: string, ms: seq<Member>,
                                           records: seq<Json>)
    requires run.failure.None? && OnInstagram(ms)
    requires InsightsSpec(env.server, run.sent, env.retries, space, DemographicsQuery(IdOf(ms), snapshot)).result
          == Ok(JList(records))
    requires RegularRecords(records)
    ensures var r := DemographicsProfile(run, env, snapshot, space, JObj(ms));
      r.failure.None? && |r.rows| == |run.rows| + |records| && r.ticks == run.ticks + |records|
  {
    var f := InsightsSpec(env.server, run.sent, env.retries, space, DemographicsQuery(IdOf(ms), snapshot));
    var ctx := DemographicsContext(snapshot, space, IdOf(ms), DemographicsProfileName(ms));
    var build := DemographicsBuild(env, ctx);
    var fetched := run.(sent := f.sent);
    DemographicsBuildRegular(env, ctx, records, fetched.ticks);
    OneRowPerRecord(fetched, build, records);
  }

  // ---------------------------------------------------------------------------
  // How a job ends

  /** run_profile_daily: an exception while gathering skips the upsert and leaves
      the warehouse alone; with no rows the upsert is still called, sends
      nothing, and the job reports `row_count` 0; a result is always the
      summary of all rows gathered under `date`. */
  lemma ProfileDailyOutcome(env: Env, spaces: seq<string>, sent: seq<HttpRequest>, ticks: nat, st: Store,
                            bq: BigQueryService, target: Date, hex: string)
    ensures var run := Fold(Run([], sent, ticks, None), DailySpaceStep(env, target), spaces);
      var e := ProfileDailyJob(env, spaces, sent, ticks, st, bq, target, hex);
      && e.sent == run.sent && e.ticks == run.ticks
      && (run.failure.Some? ==> e == JobEnd(Err(run.failure.value), run.sent, run.ticks, st))
      && (run.failure.None? && run.rows == [] ==> e == JobEnd(Ok(Summary("date", target, 0)), run.sent, run.ticks, st))
      && (e.result.Ok? ==> e.result == Ok(Summary("date", target, |run.rows|)))
  {
  }

  /** run_post_snapshots: the same, under `snapshot_date`. */
  lemma PostSnapshotsOutcome(env: Env, spaces: seq<string>, lookback: int, sent: seq<HttpRequest>, ticks: nat,
                             st: Store, bq: BigQueryService, snapshot: Date, hex: string)
    ensures var run := Fold(Run([], sent, ticks, None), PostSpaceStep(env, snapshot, MinusDays(snapshot, lookback)), spaces);
      var e := PostSnapshotsJob(env, spaces, lookback, sent, ticks, st, bq, snapshot, hex);
      && e.sent == run.sent && e.ticks == run.ticks
      && (run.failure.Some? ==> e == JobEnd(Err(run.failure.value), run.sent, run.ticks, st))
      && (run.failure.None? && run.rows == [] ==> e == JobEnd(Ok(Summary("snapshot_date", snapshot, 0)), run.sent, run.ticks, st))
      && (e.result.Ok? ==> e.result == Ok(Summary("snapshot_date", snapshot, |run.rows|)))
  {
  }

  /** run_follower_demographics: the same, under `snapshot_date`. */
  lemma DemographicsOutcome(env: Env, spaces: seq<string>, sent: seq<HttpRequest>, ticks: nat, st: Store,
                            bq: BigQueryService, snapshot: Date, hex: string)
    ensures var run := Fold(Run([], sent, ticks, None), DemographicsSpaceStep(env, snapshot), spaces);
      var e := DemographicsJob(env, spaces, sent, ticks, st, bq, snapshot, hex);
      && e.sent == run.sent && e.ticks == run.ticks
      && (run.failure.Some? ==> e == JobEnd(Err(run.failure.value), run.sent, run.ticks, st))
      && (run.failure.None? && run.rows == [] ==> e == JobEnd(Ok(Summary("snapshot_date", snapshot, 0)), run.sent, run.ticks, st))
      && (e.result.Ok? ==> e.result == Ok(Summary("snapshot_date", snapshot, |run.rows|)))
  {
  }
}
