/** The three jobs (src/statusbrew_pipeline/jobs.py): for every configured
    space, list its profiles, keep the Instagram ones, fetch their insights,
    turn every returned record into one row, and upsert all rows in one call.

    The pure functions below say what one run computes; the `JobRunner`
    methods do it step by step and are proved equal to them. A run's progress
    is a `Run`: the rows gathered so far, every request the client has sent,
    the number of clock readings taken (one per row, by `to_dict`) and the
    exception that ended it, if any. */
module Jobs {
  import opened PyValues
  import opened Times
  import opened Models
  import opened Normalize
  import Merge
  import opened BigQuery
  import opened Client
  import opened Config

  /** What a run depends on besides its inputs: the server the client talks to,
      the client's retry budget, `utcnow()` by reading number, and
      `dateutil.parser.parse`. */
  datatype Env = Env(
    server: seq<HttpRequest> -> Exchange,
    retries: int,
    clock: nat -> DateTime,
    parse: string -> Option<DateTime>)

  datatype Run = Run(rows: seq<Row>, sent: seq<HttpRequest>, ticks: nat, failure: Option<Error>)

  /** An exception ends the run where it stands. */
  function Raise(run: Run, e: Error): Run {
    run.(failure := Some(e))
  }

  /** `rows.append(row)` for a row whose `to_dict` took the next clock reading. */
  function Emit(run: Run, row: Row): Run {
    run.(rows := run.rows + [row], ticks := run.ticks + 1)
  }

  /** A `for` loop whose body is `step`, left at the first exception. */
  function Fold<T>(run: Run, step: (Run, T) -> Run, xs: seq<T>): Run
    decreases |xs|
  {
    if xs == [] || run.failure.Some? then run
    else Fold(step(run, xs[0]), step, xs[1..])
  }

  /** The body of `for record in records:`: build the row at the next clock
      reading and append it, or raise what building it raised. */
  function AddRow(build: (Json, nat) -> Result<Row>): (Run, Json) -> Run {
    (run: Run, record: Json) =>
      match build(record, run.ticks)
      case Ok(row) => Emit(run, row)
      case Err(e) => Raise(run, e)
  }

  // ---------------------------------------------------------------------------
  // Profiles

  /** `profile.get(key)` on a dict profile. */
  function Attr(ms: seq<Member>, key: string): Json {
    Lookup(ms, key).GetOr(JNull)
  }

  /** `profile.get("platform") or profile.get("platform_type")`. */
  function PlatformOf(ms: seq<Member>): Json {
    Or(Attr(ms, "platform"), Attr(ms, "platform_type"))
  }

  predicate OnInstagram(ms: seq<Member>) {
    PlatformOf(ms) == JStr("instagram")
  }

  /** `profile.get("id") or profile.get("profile_id") or profile.get("uid")`. */
  function IdOf(ms: seq<Member>): Json {
    Or(Attr(ms, "id"), Or(Attr(ms, "profile_id"), Attr(ms, "uid")))
  }

  /** `{"row_count": len(rows), key: str(d)}`. */
  function Summary(key: string, d: Date, rowCount: nat): Json {
    JObj([Member("row_count", JInt(rowCount)), Member(key, JStr(IsoDate(d)))])
  }

  /** The end of a job: its result or exception, every request sent, the clock
      readings taken, and the warehouse afterwards. */
  datatype JobEnd = JobEnd(result: Result<Json>, sent: seq<HttpRequest>, ticks: nat, store: Store)

  /** The upsert and the summary after the rows are gathered; an exception
      while gathering skips the upsert. */
  function Finish(run: Run, st: Store, upsert: Step, summary: Json): JobEnd {
    if run.failure.Some? then JobEnd(Err(run.failure.value), run.sent, run.ticks, st)
    else match upsert.outcome
      case Fail(e) => JobEnd(Err(e), run.sent, run.ticks, upsert.store)
      case Pass => JobEnd(Ok(summary), run.sent, run.ticks, upsert.store)
  }

  // ---------------------------------------------------------------------------
  // run_profile_daily

  /** `username or str(_get(record, "profile_username") or "")`: the record is
      only consulted when the profile gave no username. */
  function DailyUsername(username: Json, record: Json): Result<Json> {
    if Truthy(username) then Ok(username)
    else
      var v :- Get(record, "profile_username");
      Ok(JStr(Str(Or(v, JStr("")))))
  }

  /** The `ProfileDailyMetric` built from one record, its arguments evaluated
      in order, so the first `_get` that raises decides the exception. */
  function DailyRecord(target: Date, space: string, profileId: Json, username: Json, record: Json)
    : (r: Result<ProfileDailyMetric>)
    ensures r.Ok? ==> (&& r.value.date == target && r.value.spaceId == space && r.value.profileId == Str(profileId)
                       && r.value.platform == "instagram" && r.value.createdAt.None? && r.value.updatedAt.None?)
  {
    var name :- DailyUsername(username, record);
    var followers :- Get(record, "followers");
    var gained :- Get(record, "followers_gained");
    var unfollowers :- Get(record, "unfollowers");
    var growth :- Get(record, "actual_growth");
    var reach :- GetEither(record, "reach", "reach_total");
    var organic :- Get(record, "reach_from_organic");
    var paid :- Get(record, "reach_from_paid");
    var impressions :- Get(record, "impressions");
    var views :- Get(record, "profile_views");
    var clicks :- Get(record, "bio_link_clicks");
    Ok(ProfileDailyMetric(target, space, Str(profileId), name, "instagram",
      ToInt(followers), ToInt(gained), ToInt(unfollowers), ToInt(growth), ToInt(reach),
      ToInt(organic), ToInt(paid), ToInt(impressions), ToInt(views), ToInt(clicks)))
  }

  datatype DailyContext = DailyContext(target: Date, space: string, profileId: Json, username: Json)

  /** The row `to_dict` makes of one record at the clock reading `tick`. */
  function DailyRow(env: Env, ctx: DailyContext, record: Json, tick: nat): Result<Row> {
    var m :- DailyRecord(ctx.target, ctx.space, ctx.profileId, ctx.username, record);
    Ok(m.ToDict(env.clock(tick)))
  }

  function DailyBuild(env: Env, ctx: DailyContext): (Json, nat) -> Result<Row> {
    (record: Json, tick: nat) => DailyRow(env, ctx, record, tick)
  }

  /** `profile.get("username") or profile.get("handle") or profile.get("name", "")`. */
  function DailyProfileName(ms: seq<Member>): Json {
    Or(Attr(ms, "username"), Or(Attr(ms, "handle"), Lookup(ms, "name").GetOr(JStr(""))))
  }

  /** One profile: skipped unless on Instagram with a truthy id; otherwise its
      metrics for the target day are fetched and every record becomes a row. */
  function DailyProfile(run: Run, env: Env, target: Date, space: string, profile: Json): Run {
    if !profile.JObj? then Raise(run, AttributeError)
    else
      var ms := profile.members;
      if !OnInstagram(ms) || !Truthy(IdOf(ms)) then run
      else
        var f := InsightsSpec(env.server, run.sent, env.retries, space, ProfileDailyQuery(IdOf(ms), target));
        var fetched := run.(sent := f.sent);
        match f.result
        case Err(e) => Raise(fetched, e)
        case Ok(data) =>
          match Iterate(data)
          case Err(e) => Raise(fetched, e)
          case Ok(records) =>
            Fold(fetched, AddRow(DailyBuild(env, DailyContext(target, space, IdOf(ms), DailyProfileName(ms)))), records)
  }

  function DailyProfileStep(env: Env, target: Date, space: string): (Run, Json) -> Run {
    (run: Run, profile: Json) => DailyProfile(run, env, target, space, profile)
  }

  /** `list_profiles(space_id)` and iterating what it returned. */
  function ListedProfiles(run: Run, env: Env, space: string): (Run, seq<Json>) {
    var f := ListProfilesSpec(env.server, run.sent, env.retries, space);
    var listed := run.(sent := f.sent);
    match f.result
    case Err(e) => (Raise(listed, e), [])
    case Ok(data) =>
      match Iterate(data)
      case Err(e) => (Raise(listed, e), [])
      case Ok(profiles) => (listed, profiles)
  }

  function DailySpace(run: Run, env: Env, target: Date, space: string): Run {
    var (listed, profiles) := ListedProfiles(run, env, space);
    Fold(listed, DailyProfileStep(env, target, space), profiles)
  }

  function DailySpaceStep(env: Env, target: Date): (Run, string) -> Run {
    (run: Run, space: string) => DailySpace(run, env, target, space)
  }

  /** `run_profile_daily(target_date)`. */
  function ProfileDailyJob(env: Env, spaces: seq<string>, sent: seq<HttpRequest>, ticks: nat, st: Store,
                           bq: BigQueryService, target: Date, hex: string): JobEnd
  {
    var run := Fold(Run([], sent, ticks, None), DailySpaceStep(env, target), spaces);
    Finish(run, st,
      UpsertSpec(st, bq.client.faults, bq.project, bq.dataset, bq.tableProfileDaily, run.rows,
                 bq.profileDailySchema, ProfileDailyKeys,
                 Merge.Without(bq.profileDailySchema, {MetricDate, ProfileId, CreatedAt}), hex),
      Summary("date", target, |run.rows|))
  }

  // ---------------------------------------------------------------------------
  // run_post_snapshots

  /** The `profile_ids` list: the id of every Instagram profile, falsy ones included. */
  function InstagramIds(profiles: seq<Json>): (r: Result<seq<Json>>)
    ensures r.Ok? <==> forall i :: 0 <= i < |profiles| ==> profiles[i].JObj?
    ensures r.Err? ==> r.error == AttributeError
    ensures r.Ok? ==> |r.value| <= |profiles|
    ensures r.Ok? ==>
      (r.value == [] <==> forall i :: 0 <= i < |profiles| ==> !OnInstagram(profiles[i].members))
  {
    if profiles == [] then Ok([])
    else
      match profiles[0]
      case JObj(ms) =>
        var rest :- InstagramIds(profiles[1..]);
        Ok((if OnInstagram(ms) then [IdOf(ms)] else []) + rest)
      case _ => Err(AttributeError)
  }

  /** The comprehension works profile by profile, keeping their order: the
      ids of two runs of profiles are the ids of the first, then of the second. */
  lemma {:induction false} InstagramIdsAppend(a: seq<Json>, b: seq<Json>)
    requires InstagramIds(a).Ok? && InstagramIds(b).Ok?
    ensures InstagramIds(a + b) == Ok(InstagramIds(a).value + InstagramIds(b).value)
  {
    if a != [] {
      InstagramIdsCons(a);
      var ms := a[0].members;
      var own: seq<Json> := if OnInstagram(ms) then [IdOf(ms)] else [];
      assert (a + b)[0] == a[0] && (a + b)[1..] == a[1..] + b;
      InstagramIdsAppend(a[1..], b);
      InstagramIdsCons(a + b);
      Strings.ConcatAssoc(own, InstagramIds(a[1..]).value, InstagramIds(b).value);
    } else {
      assert a + b == b;
      assert [] + InstagramIds(b).value == InstagramIds(b).value;
    }
  }

  lemma InstagramIdsCons(a: seq<Json>)
    requires a != [] && InstagramIds(a).Ok?
    ensures a[0].JObj? && InstagramIds(a[1..]).Ok?
    ensures var ms := a[0].members;
      InstagramIds(a) == Ok((if OnInstagram(ms) then [IdOf(ms)] else []) + InstagramIds(a[1..]).value)
  {
  }

  /** One profile contributes its id exactly when it is on Instagram, falsy
      ids included. */
  lemma InstagramIdsOne(ms: seq<Member>)
    ensures InstagramIds([JObj(ms)]) == Ok(if OnInstagram(ms) then [IdOf(ms)] else [])
  {
    assert [JObj(ms)][1..] == [];
    assert InstagramIds([]) == Ok([]);
    var own: seq<Json> := if OnInstagram(ms) then [IdOf(ms)] else [];
    assert own + [] == own;
  }

  /** The `profile_map` dict: `str(id)` to profile for every Instagram profile,
      a later profile replacing an earlier one with the same key. */
  function ProfileMap(profiles: seq<Json>): Result<map<string, seq<Member>>>
    decreases |profiles|
  {
    if profiles == [] then Ok(map[])
    else
      var earlier :- ProfileMap(profiles[..|profiles| - 1]);
      match profiles[|profiles| - 1]
      case JObj(ms) => Ok(if OnInstagram(ms) then earlier[Str(IdOf(ms)) := ms] else earlier)
      case _ => Err(AttributeError)
  }

  datatype PostContext = PostContext(snapshot: Date, space: string, profiles: map<string, seq<Member>>)

  /** `profile_map.get(profile_id, {})`, then `username or name or ""`. */
  function PostUsername(profiles: map<string, seq<Member>>, profileId: string): Json {
    var info := if profileId in profiles then profiles[profileId] else [];
    Or(Attr(info, "username"), Or(Attr(info, "name"), JStr("")))
  }

  /** The `PostDailySnapshot` built from one record. */
  function PostRecord(ctx: PostContext, parse: string -> Option<DateTime>, record: Json)
    : (r: Result<PostDailySnapshot>)
    ensures r.Ok? ==> (&& r.value.snapshotDate == ctx.snapshot && r.value.spaceId == ctx.space
                       && r.value.profileUsername == PostUsername(ctx.profiles, r.value.profileId)
                       && r.value.createdAt.None?)
  {
    var owner :- GetEither(record, "profile_id", "profile");
    var profileId := Str(owner);
    var postId :- GetEither(record, "post_id", "post");
    var permalink :- GetEither(record, "post_permalink", "permalink");
    var kind :- GetEither(record, "post_type", "type");
    var published :- GetEither(record, "post_published_at", "post_created_at");
    var reach :- Get(record, "post_reach");
    var impressions :- Get(record, "post_impressions");
    var likes :- GetEither(record, "post_reactions", "post_likes");
    var comments :- Get(record, "post_comments");
    var shares :- Get(record, "post_shares");
    var saves :- GetEither(record, "post_saved", "post_saves");
    var follows :- Get(record, "post_follows");
    var activity :- Get(record, "post_profile_activity_total");
    var clicks :- Get(record, "post_profile_activity_bio_link_clicked");
    Ok(PostDailySnapshot(ctx.snapshot, ctx.space, profileId, PostUsername(ctx.profiles, profileId),
      SafeStr(postId), SafeStr(permalink), SafeStr(kind), ParseDatetime(published, parse),
      ToInt(reach), ToInt(impressions), ToInt(likes), ToInt(comments), ToInt(shares), ToInt(saves),
      ToInt(follows), ToInt(activity), ToInt(clicks)))
  }

  function PostRow(env: Env, ctx: PostContext, record: Json, tick: nat): Result<Row> {
    var m :- PostRecord(ctx, env.parse, record);
    Ok(m.ToDict(env.clock(tick)))
  }

  function PostBuild(env: Env, ctx: PostContext): (Json, nat) -> Result<Row> {
    (record: Json, tick: nat) => PostRow(env, ctx, record, tick)
  }

  /** One space after its listing: its Instagram profiles' ids and map, then,
      unless there are no ids, one fetch of the posts of all of them in the
      window, one row per record. */
  function PostProfiles(listed: Run, env: Env, snapshot: Date, since: Date, space: string, profiles: seq<Json>): Run {
    match InstagramIds(profiles)
    case Err(e) => Raise(listed, e)
    case Ok(ids) =>
      match ProfileMap(profiles)
      case Err(e) => Raise(listed, e)
      case Ok(byId) =>
        if ids == [] then listed
        else
          var f := InsightsSpec(env.server, listed.sent, env.retries, space, PostSnapshotsQuery(ids, since, snapshot));
          var fetched := listed.(sent := f.sent);
          match f.result
          case Err(e) => Raise(fetched, e)
          case Ok(data) =>
            match Iterate(data)
            case Err(e) => Raise(fetched, e)
            case Ok(records) => Fold(fetched, AddRow(PostBuild(env, PostContext(snapshot, space, byId))), records)
  }

  function PostSpace(run: Run, env: Env, snapshot: Date, since: Date, space: string): Run {
    var (listed, profiles) := ListedProfiles(run, env, space);
    if listed.failure.Some? then listed
    else PostProfiles(listed, env, snapshot, since, space, profiles)
  }

  function PostSpaceStep(env: Env, snapshot: Date, since: Date): (Run, string) -> Run {
    (run: Run, space: string) => PostSpace(run, env, snapshot, since, space)
  }

  /** `run_post_snapshots(snapshot_date)`: the window starts `lookback` days
      before the snapshot date. */
  function PostSnapshotsJob(env: Env, spaces: seq<string>, lookback: int, sent: seq<HttpRequest>, ticks: nat,
                            st: Store, bq: BigQueryService, snapshot: Date, hex: string): JobEnd
  {
    var run := Fold(Run([], sent, ticks, None), PostSpaceStep(env, snapshot, MinusDays(snapshot, lookback)), spaces);
    Finish(run, st,
      UpsertSpec(st, bq.client.faults, bq.project, bq.dataset, bq.tablePostSnapshots, run.rows,
                 bq.postSnapshotSchema, PostSnapshotKeys,
                 Merge.Without(bq.postSnapshotSchema, {SnapshotDate, PostId, CreatedAt}), hex),
      Summary("snapshot_date", snapshot, |run.rows|))
  }

  // ---------------------------------------------------------------------------
  // run_follower_demographics

  /** The `FollowerDemographics` built from one record. */
  function DemographicsRecord(snapshot: Date, space: string, profileId: Json, username: Json, record: Json)
    : (r: Result<FollowerDemographics>)
    ensures r.Ok? ==> (&& r.value.snapshotDate == snapshot && r.value.spaceId == space
                       && r.value.profileId == Str(profileId) && r.value.profileUsername == username
                       && r.value.createdAt.None?)
  {
    var age :- Get(record, "age");
    var gender :- Get(record, "gender");
    var country :- Get(record, "country");
    var city :- Get(record, "city");
    var followers :- Get(record, "followers");
    Ok(FollowerDemographics(snapshot, space, Str(profileId), username,
      SafeStr(age), SafeStr(gender), SafeStr(country), SafeStr(city), ToInt(followers)))
  }

  datatype DemographicsContext = DemographicsContext(snapshot: Date, space: string, profileId: Json, username: Json)

  function DemographicsRow(env: Env, ctx: DemographicsContext, record: Json, tick: nat): Result<Row> {
    var m :- DemographicsRecord(ctx.snapshot, ctx.space, ctx.profileId, ctx.username, record);
    Ok(m.ToDict(env.clock(tick)))
  }

  function DemographicsBuild(env: Env, ctx: DemographicsContext): (Json, nat) -> Result<Row> {
    (record: Json, tick: nat) => DemographicsRow(env, ctx, record, tick)
  }

  /** `profile.get("username") or profile.get("name") or ""`. */
  function DemographicsProfileName(ms: seq<Member>): Json {
    Or(Attr(ms, "username"), Or(Attr(ms, "name"), JStr("")))
  }

  /** One profile: skipped unless on Instagram; its id is used whatever it is. */
  function DemographicsProfile(run: Run, env: Env, snapshot: Date, space: string, profile: Json): Run {
    if !profile.JObj? then Raise(run, AttributeError)
    else
      var ms := profile.members;
      if !OnInstagram(ms) then run
      else
        var f := InsightsSpec(env.server, run.sent, env.retries, space, DemographicsQuery(IdOf(ms), snapshot));
        var fetched := run.(sent := f.sent);
        match f.result
        case Err(e) => Raise(fetched, e)
        case Ok(data) =>
          match Iterate(data)
          case Err(e) => Raise(fetched, e)
          case Ok(records) =>
            Fold(fetched, AddRow(DemographicsBuild(env,
              DemographicsContext(snapshot, space, IdOf(ms), DemographicsProfileName(ms)))), records)
  }

  function DemographicsProfileStep(env: Env, snapshot: Date, space: string): (Run, Json) -> Run {
    (run: Run, profile: Json) => DemographicsProfile(run, env, snapshot, space, profile)
  }

  function DemographicsSpace(run: Run, env: Env, snapshot: Date, space: string): Run {
    var (listed, profiles) := ListedProfiles(run, env, space);
    Fold(listed, DemographicsProfileStep(env, snapshot, space), profiles)
  }

  function DemographicsSpaceStep(env: Env, snapshot: Date): (Run, string) -> Run {
    (run: Run, space: string) => DemographicsSpace(run, env, snapshot, space)
  }

  /** `run_follower_demographics(snapshot_date)`. */
  function DemographicsJob(env: Env, spaces: seq<string>, sent: seq<HttpRequest>, ticks: nat, st: Store,
                           bq: BigQueryService, snapshot: Date, hex: string): JobEnd
  {
    var run := Fold(Run([], sent, ticks, None), DemographicsSpaceStep(env, snapshot), spaces);
    Finish(run, st,
      UpsertSpec(st, bq.client.faults, bq.project, bq.dataset, bq.tableDemographics, run.rows,
                 bq.demographicsSchema, DemographicsKeys,
                 Merge.Without(bq.demographicsSchema, {SnapshotDate, ProfileId, AgeGroup, Gender, Country, City, CreatedAt}), hex),
      Summary("snapshot_date", snapshot, |run.rows|))
  }
}
