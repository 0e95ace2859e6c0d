/** `JobRunner` (src/statusbrew_pipeline/jobs.py:57-186): the jobs as loops
    over spaces, profiles and records, each proved to compute what the
    functions of module `Jobs` say. The `rows` list a job appends to is passed
    down and handed back by the helper methods that run one loop each. */
module Runner {
  import opened PyValues
  import opened Times
  import opened Models
  import opened BigQuery
  import opened Client
  import opened Config
  import opened Jobs

  class JobRunner {
    const settings: Settings
    const statusbrew: StatusbrewClient
    const bq: BigQueryService
    /** `utcnow()`, by reading number. */
    const clock: nat -> DateTime
    /** `dateutil.parser.parse`, with its failure as `None`. */
    const parse: string -> Option<DateTime>
    /** How many times `utcnow()` has been read. */
    var ticks: nat

    constructor(settings: Settings, statusbrew: StatusbrewClient, bq: BigQueryService,
                clock: nat -> DateTime, parse: string -> Option<DateTime>)
      ensures this.settings == settings && this.statusbrew == statusbrew && this.bq == bq
      ensures this.clock == clock && this.parse == parse && ticks == 0
    {
      this.settings := settings;
      this.statusbrew := statusbrew;
      this.bq := bq;
      this.clock := clock;
      this.parse := parse;
      this.ticks := 0;
    }

    function Environment(): Env {
      Jobs.Env(statusbrew.server, statusbrew.retries, clock, parse)
    }

    /** `for record in records: rows.append(...)`, shared by the three jobs:
        `build` turns one record into its row at a given clock reading. */
    method GatherRecords(build: (Json, nat) -> Result<Row>, records: seq<Json>, rows: seq<Row>)
      returns (out: seq<Row>, failure: Option<Error>)
      modifies this
      ensures Run(out, statusbrew.sent, ticks, failure)
           == Fold(Run(rows, statusbrew.sent, old(ticks), None), AddRow(build), records)
    {
      out, failure := rows, None;
      var k := 0;
      while k < |records|
        invariant 0 <= k <= |records|
        invariant Fold(Run(out, statusbrew.sent, ticks, None), AddRow(build), records[k..])
               == Fold(Run(rows, statusbrew.sent, old(ticks), None), AddRow(build), records)
      {
        assert records[k..][1..] == records[k + 1..];
        var built := build(records[k], ticks);
        if built.Err? {
          failure := Some(built.error);
          return;
        }
        out := out + [built.value];
        ticks := ticks + 1;
        k := k + 1;
      }
      assert records[k..] == [];
    }

    /** `profiles = self.statusbrew.list_profiles(space_id)` and the start of
        `for profile in profiles:`, shared by the three jobs. */
    method ListSpace(space: string, rows: seq<Row>) returns (failure: Option<Error>, profiles: seq<Json>)
      modifies statusbrew
      ensures (Run(rows, statusbrew.sent, ticks, failure), profiles)
           == ListedProfiles(Run(rows, old(statusbrew.sent), ticks, None), Environment(), space)
    {
      var listed := statusbrew.ListProfiles(space);
      if listed.Err? {
        return Some(listed.error), [];
      }
      var iterated := Iterate(listed.value);
      if iterated.Err? {
        return Some(iterated.error), [];
      }
      return None, iterated.value;
    }

    // -------------------------------------------------------------------------
    // run_profile_daily

    method GatherDailyProfile(target: Date, space: string, profile: Json, rows: seq<Row>)
      returns (out: seq<Row>, failure: Option<Error>)
      modifies this, statusbrew
      ensures Run(out, statusbrew.sent, ticks, failure)
           == DailyProfile(Run(rows, old(statusbrew.sent), old(ticks), None), Environment(), target, space, profile)
    {
      if !profile.JObj? {
        return rows, Some(AttributeError);
      }
      var ms := profile.members;
      if !OnInstagram(ms) {
        return rows, None;
      }
      var profileId := IdOf(ms);
      if !Truthy(profileId) {
        return rows, None;
      }
      var username := DailyProfileName(ms);
      var fetched := statusbrew.FetchProfileDailyMetrics(space, profileId, target);
      if fetched.Err? {
        return rows, Some(fetched.error);
      }
      var records := Iterate(fetched.value);
      if records.Err? {
        return rows, Some(records.error);
      }
      out, failure := GatherRecords(DailyBuild(Environment(), DailyContext(target, space, profileId, username)),
                                    records.value, rows);
    }

    method GatherDailySpace(target: Date, space: string, rows: seq<Row>)
      returns (out: seq<Row>, failure: Option<Error>)
      modifies this, statusbrew
      ensures Run(out, statusbrew.sent, ticks, failure)
           == DailySpace(Run(rows, old(statusbrew.sent), old(ticks), None), Environment(), target, space)
    {
      var profiles;
      failure, profiles := ListSpace(space, rows);
      if failure.Some? {
        return rows, failure;
      }
      ghost var start := Run(rows, statusbrew.sent, ticks, None);
      assert DailySpace(Run(rows, old(statusbrew.sent), old(ticks), None), Environment(), target, space)
          == DailySpace(Run(rows, old(statusbrew.sent), old(ticks), None), Environment(), target, space);
      assert DailySpace(Run(rows, old(statusbrew.sent), old(ticks), None), Environment(), target, space)
          == Fold(start, DailyProfileStep(Environment(), target, space), profiles);
      out, failure := rows, None;
      var j := 0;
      while j < |profiles|
        invariant 0 <= j <= |profiles|
        invariant failure.None?
        invariant Fold(Run(out, statusbrew.sent, ticks, None), DailyProfileStep(Environment(), target, space), profiles[j..])
               == Fold(start, DailyProfileStep(Environment(), target, space), profiles)
      {
        assert profiles[j..][1..] == profiles[j + 1..];
        out, failure := GatherDailyProfile(target, space, profiles[j], out);
        if failure.Some? {
          return;
        }
        j := j + 1;
      }
      assert profiles[j..] == [];
    }

    /** `for space_id in self.settings.space_ids:`, one job's spaces in order. */
    method GatherProfileDaily(target: Date) returns (rows: seq<Row>, failure: Option<Error>)
      modifies this, statusbrew
      ensures Run(rows, statusbrew.sent, ticks, failure)
           == Fold(Run([], old(statusbrew.sent), old(ticks), None), DailySpaceStep(Environment(), target), settings.spaceIds)
    {
      var spaces := settings.spaceIds;
      ghost var start := Run([], statusbrew.sent, ticks, None);
      rows, failure := [], None;
      var i := 0;
      while i < |spaces|
        invariant 0 <= i <= |spaces|
        invariant failure.None?
        invariant Fold(Run(rows, statusbrew.sent, ticks, None), DailySpaceStep(Environment(), target), spaces[i..])
               == Fold(start, DailySpaceStep(Environment(), target), spaces)
      {
        assert spaces[i..][1..] == spaces[i + 1..];
        rows, failure := GatherDailySpace(target, spaces[i], rows);
        if failure.Some? {
          return;
        }
        i := i + 1;
      }
      assert spaces[i..] == [];
    }

    /** `run_profile_daily(target_date)`: the target defaults to yesterday in
        the configured zone, whose current date is `today`. */
    method RunProfileDaily(targetDate: Option<Date>, today: Date, hex: string) returns (r: Result<Json>)
      modifies this, statusbrew, bq.client
      ensures JobEnd(r, statusbrew.sent, ticks, bq.client.Snapshot())
           == ProfileDailyJob(Environment(), settings.spaceIds, old(statusbrew.sent), old(ticks), old(bq.client.Snapshot()),
                              bq, targetDate.GetOr(MinusDays(today, 1)), hex)
    {
      var target := if targetDate.Some? then targetDate.value else MinusDays(today, 1);
      var rows, failure := GatherProfileDaily(target);
      if failure.Some? {
        return Err(failure.value);
      }
      var outcome := bq.UpsertProfileDaily(rows, hex);
      if outcome.Fail? {
        return Err(outcome.error);
      }
      return Ok(Summary("date", target, |rows|));
    }

    // -------------------------------------------------------------------------
    // run_post_snapshots

    method GatherPostSpace(snapshot: Date, since: Date, space: string, rows: seq<Row>)
      returns (out: seq<Row>, failure: Option<Error>)
      modifies this, statusbrew
      ensures Run(out, statusbrew.sent, ticks, failure)
           == PostSpace(Run(rows, old(statusbrew.sent), old(ticks), None), Environment(), snapshot, since, space)
    {
      var profiles;
      failure, profiles := ListSpace(space, rows);
      if failure.Some? {
        return rows, failure;
      }
      var profileIds := InstagramIds(profiles);
      if profileIds.Err? {
        return rows, Some(profileIds.error);
      }
      var profileMap := ProfileMap(profiles);
      if profileMap.Err? {
        return rows, Some(profileMap.error);
      }
      if profileIds.value == [] {
        return rows, None;
      }
      var fetched := statusbrew.FetchPostSnapshots(space, profileIds.value, since, snapshot);
      if fetched.Err? {
        return rows, Some(fetched.error);
      }
      var records := Iterate(fetched.value);
      if records.Err? {
        return rows, Some(records.error);
      }
      out, failure := GatherRecords(PostBuild(Environment(), PostContext(snapshot, space, profileMap.value)),
                                    records.value, rows);
    }

    /** `for space_id in self.settings.space_ids:`, one job's spaces in order. */
    method GatherPostSnapshots(snapshot: Date, since: Date) returns (rows: seq<Row>, failure: Option<Error>)
      modifies this, statusbrew
      ensures Run(rows, statusbrew.sent, ticks, failure)
           == Fold(Run([], old(statusbrew.sent), old(ticks), None), PostSpaceStep(Environment(), snapshot, since), settings.spaceIds)
    {
      var spaces := settings.spaceIds;
      ghost var start := Run([], statusbrew.sent, ticks, None);
      rows, failure := [], None;
      var i := 0;
      while i < |spaces|
        invariant 0 <= i <= |spaces|
        invariant failure.None?
        invariant Fold(Run(rows, statusbrew.sent, ticks, None), PostSpaceStep(Environment(), snapshot, since), spaces[i..])
               == Fold(start, PostSpaceStep(Environment(), snapshot, since), spaces)
      {
        assert spaces[i..][1..] == spaces[i + 1..];
        rows, failure := GatherPostSpace(snapshot, since, spaces[i], rows);
        if failure.Some? {
          return;
        }
        i := i + 1;
      }
      assert spaces[i..] == [];
    }

    /** `run_post_snapshots(snapshot_date)`: the snapshot defaults to today. */
    method RunPostSnapshots(snapshotDate: Option<Date>, today: Date, hex: string) returns (r: Result<Json>)
      modifies this, statusbrew, bq.client
      ensures JobEnd(r, statusbrew.sent, ticks, bq.client.Snapshot())
           == PostSnapshotsJob(Environment(), settings.spaceIds, settings.recentPostLookbackDays, old(statusbrew.sent),
                               old(ticks), old(bq.client.Snapshot()), bq, snapshotDate.GetOr(today), hex)
    {
      var snapshot := if snapshotDate.Some? then snapshotDate.value else today;
      var since := MinusDays(snapshot, settings.recentPostLookbackDays);
      var rows, failure := GatherPostSnapshots(snapshot, since);
      if failure.Some? {
        return Err(failure.value);
      }
      var outcome := bq.UpsertPostSnapshots(rows, hex);
      if outcome.Fail? {
        return Err(outcome.error);
      }
      return Ok(Summary("snapshot_date", snapshot, |rows|));
    }

    // -------------------------------------------------------------------------
    // run_follower_demographics

    method GatherDemographicsProfile(snapshot: Date, space: string, profile: Json, rows: seq<Row>)
      returns (out: seq<Row>, failure: Option<Error>)
      modifies this, statusbrew
      ensures Run(out, statusbrew.sent, ticks, failure)
           == DemographicsProfile(Run(rows, old(statusbrew.sent), old(ticks), None), Environment(), snapshot, space, profile)
    {
      if !profile.JObj? {
        return rows, Some(AttributeError);
      }
      var ms := profile.members;
      if !OnInstagram(ms) {
        return rows, None;
      }
      var profileId := IdOf(ms);
      var username := DemographicsProfileName(ms);
      var fetched := statusbrew.FetchFollowerDemographics(space, profileId, snapshot);
      if fetched.Err? {
        return rows, Some(fetched.error);
      }
      var records := Iterate(fetched.value);
      if records.Err? {
        return rows, Some(records.error);
      }
      out, failure := GatherRecords(DemographicsBuild(Environment(), DemographicsContext(snapshot, space, profileId, username)),
                                    records.value, rows);
    }

    method GatherDemographicsSpace(snapshot: Date, space: string, rows: seq<Row>)
      returns (out: seq<Row>, failure: Option<Error>)
      modifies this, statusbrew
      ensures Run(out, statusbrew.sent, ticks, failure)
           == DemographicsSpace(Run(rows, old(statusbrew.sent), old(ticks), None), Environment(), snapshot, space)
    {
      var profiles;
      failure, profiles := ListSpace(space, rows);
      if failure.Some? {
        return rows, failure;
      }
      ghost var start := Run(rows, statusbrew.sent, ticks, None);
      out, failure := rows, None;
      var j := 0;
      while j < |profiles|
        invariant 0 <= j <= |profiles|
        invariant failure.None?
        invariant Fold(Run(out, statusbrew.sent, ticks, None), DemographicsProfileStep(Environment(), snapshot, space), profiles[j..])
               == Fold(start, DemographicsProfileStep(Environment(), snapshot, space), profiles)
      {
        assert profiles[j..][1..] == profiles[j + 1..];
        out, failure := GatherDemographicsProfile(snapshot, space, profiles[j], out);
        if failure.Some? {
          return;
        }
        j := j + 1;
      }
      assert profiles[j..] == [];
    }

    /** `for space_id in self.settings.space_ids:`, one job's spaces in order. */
    method GatherFollowerDemographics(snapshot: Date) returns (rows: seq<Row>, failure: Option<Error>)
      modifies this, statusbrew
      ensures Run(rows, statusbrew.sent, ticks, failure)
           == Fold(Run([], old(statusbrew.sent), old(ticks), None), DemographicsSpaceStep(Environment(), snapshot), settings.spaceIds)
    {
      var spaces := settings.spaceIds;
      ghost var start := Run([], statusbrew.sent, ticks, None);
      rows, failure := [], None;
      var i := 0;
      while i < |spaces|
        invariant 0 <= i <= |spaces|
        invariant failure.None?
        invariant Fold(Run(rows, statusbrew.sent, ticks, None), DemographicsSpaceStep(Environment(), snapshot), spaces[i..])
               == Fold(start, DemographicsSpaceStep(Environment(), snapshot), spaces)
      {
        assert spaces[i..][1..] == spaces[i + 1..];
        rows, failure := GatherDemographicsSpace(snapshot, spaces[i], rows);
        if failure.Some? {
          return;
        }
        i := i + 1;
      }
      assert spaces[i..] == [];
    }

    /** `run_follower_demographics(snapshot_date)`: the snapshot defaults to today. */
    method RunFollowerDemographics(snapshotDate: Option<Date>, today: Date, hex: string) returns (r: Result<Json>)
      modifies this, statusbrew, bq.client
      ensures JobEnd(r, statusbrew.sent, ticks, bq.client.Snapshot())
           == DemographicsJob(Environment(), settings.spaceIds, old(statusbrew.sent), old(ticks), old(bq.client.Snapshot()),
                              bq, snapshotDate.GetOr(today), hex)
    {
      var snapshot := if snapshotDate.Some? then snapshotDate.value else today;
      var rows, failure := GatherFollowerDemographics(snapshot);
      if failure.Some? {
        return Err(failure.value);
      }
      var outcome := bq.UpsertDemographics(rows, hex);
      if outcome.Fail? {
        return Err(outcome.error);
      }
      return Ok(Summary("snapshot_date", snapshot, |rows|));
    }
  }
}
