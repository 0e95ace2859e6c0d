/** Properties of the row records and their `to_dict`. */
module RowLaws {
  import opened PyValues
  import opened Times
  import opened Models

  // ---------------------------------------------------------------------------
  // ProfileDailyMetric

  /** `to_dict` loses and alters no field: reading its row back gives the
      record with its missing stamps filled from the clock. */
  lemma ProfileDailyRoundTrip(m: ProfileDailyMetric, now: DateTime)
    ensures ProfileDailyFromRow(m.ToDict(now)) == Some(m.Stamped(now))
  {
    ProfileDailyIdentityCells(m, now);
    ProfileDailyAccountCells(m, now);
    ProfileDailyGrowthCells(m, now);
    ProfileDailyReachCells(m, now);
    ProfileDailyViewsCells(m, now);
    ProfileDailyStampCells(m, now);
  }

  lemma ProfileDailyIdentityCells(m: ProfileDailyMetric, now: DateTime)
    ensures var row := m.ToDict(now);
      && DateAt(row, MetricDate) == Some(m.date)
      && TextAt(row, SpaceId) == Some(m.spaceId)
      && TextAt(row, ProfileId) == Some(m.profileId)
  {
  }

  lemma ProfileDailyAccountCells(m: ProfileDailyMetric, now: DateTime)
    ensures var row := m.ToDict(now);
      && JsonAt(row, ProfileUsername) == Some(m.profileUsername)
      && TextAt(row, Platform) == Some(m.platform)
  {
  }

  lemma ProfileDailyGrowthCells(m: ProfileDailyMetric, now: DateTime)
    ensures var row := m.ToDict(now);
      && IntAt(row, Followers) == Some(m.followers)
      && IntAt(row, FollowersGained) == Some(m.followersGained)
      && IntAt(row, Unfollowers) == Some(m.unfollowers)
  {
  }

  lemma ProfileDailyReachCells(m: ProfileDailyMetric, now: DateTime)
    ensures var row := m.ToDict(now);
      && IntAt(row, ActualGrowth) == Some(m.actualGrowth)
      && IntAt(row, ReachTotal) == Some(m.reachTotal)
      && IntAt(row, ReachOrganic) == Some(m.reachOrganic)
  {
  }

  lemma ProfileDailyViewsCells(m: ProfileDailyMetric, now: DateTime)
    ensures var row := m.ToDict(now);
      && IntAt(row, ReachPaid) == Some(m.reachPaid)
      && IntAt(row, Impressions) == Some(m.impressions)
      && IntAt(row, ProfileViews) == Some(m.profileViews)
  {
  }

  lemma ProfileDailyStampCells(m: ProfileDailyMetric, now: DateTime)
    ensures var row := m.ToDict(now);
      && IntAt(row, BioLinkClicks) == Some(m.bioLinkClicks)
      && TimeAt(row, CreatedAt) == Some(Stamp(m.createdAt, now))
      && TimeAt(row, UpdatedAt) == Some(Stamp(m.updatedAt, now))
  {
  }

  /** The row has exactly the dataclass's columns; a provided stamp is kept and a
      missing one is the clock reading, which is read once, so two missing
      stamps are equal. */
  lemma ProfileDailyStamps(m: ProfileDailyMetric, now: DateTime)
    ensures forall c :: c in m.ToDict(now) <==> InProfileDaily(c)
    ensures m.ToDict(now)[CreatedAt] == TimeCell(if m.createdAt.Some? then m.createdAt.value else now)
    ensures m.ToDict(now)[UpdatedAt] == TimeCell(if m.updatedAt.Some? then m.updatedAt.value else now)
    ensures m.createdAt.None? && m.updatedAt.None? ==> m.ToDict(now)[CreatedAt] == m.ToDict(now)[UpdatedAt]
  {
  }

  /** Once stamped, a record serialises to the same row at any later clock reading. */
  lemma ProfileDailyStampedStable(m: ProfileDailyMetric, now: DateTime, later: DateTime)
    ensures m.Stamped(now).ToDict(later) == m.ToDict(now)
  {
  }

  // ---------------------------------------------------------------------------
  // PostDailySnapshot

  lemma PostSnapshotRoundTrip(m: PostDailySnapshot, now: DateTime)
    ensures PostSnapshotFromRow(m.ToDict(now)) == Some(m.Stamped(now))
  {
    PostSnapshotIdentityCells(m, now);
    PostSnapshotPostCells(m, now);
    PostSnapshotPublishedCells(m, now);
    PostSnapshotReachCells(m, now);
    PostSnapshotEngagementCells(m, now);
    PostSnapshotActivityCells(m, now);
    PostSnapshotStampCells(m, now);
  }

  lemma PostSnapshotIdentityCells(m: PostDailySnapshot, now: DateTime)
    ensures var row := m.ToDict(now);
      && DateAt(row, SnapshotDate) == Some(m.snapshotDate)
      && TextAt(row, SpaceId) == Some(m.spaceId)
      && TextAt(row, ProfileId) == Some(m.profileId)
  {
  }

  lemma PostSnapshotPostCells(m: PostDailySnapshot, now: DateTime)
    ensures var row := m.ToDict(now);
      && JsonAt(row, ProfileUsername) == Some(m.profileUsername)
      && TextAt(row, PostId) == Some(m.postId)
      && TextAt(row, PostPermalink) == Some(m.postPermalink)
  {
  }

  lemma PostSnapshotPublishedCells(m: PostDailySnapshot, now: DateTime)
    ensures var row := m.ToDict(now);
      && TextAt(row, PostType) == Some(m.postType)
      && OptTimeAt(row, PostPublishedAt) == Some(m.postPublishedAt)
  {
  }

  lemma PostSnapshotReachCells(m: PostDailySnapshot, now: DateTime)
    ensures var row := m.ToDict(now);
      && IntAt(row, ReachTotal) == Some(m.reachTotal)
      && IntAt(row, ImpressionsTotal) == Some(m.impressionsTotal)
      && IntAt(row, Likes) == Some(m.likes)
  {
  }

  lemma PostSnapshotEngagementCells(m: PostDailySnapshot, now: DateTime)
    ensures var row := m.ToDict(now);
      && IntAt(row, Comments) == Some(m.comments)
      && IntAt(row, Shares) == Some(m.shares)
      && IntAt(row, Saves) == Some(m.saves)
  {
  }

  lemma PostSnapshotActivityCells(m: PostDailySnapshot, now: DateTime)
    ensures var row := m.ToDict(now);
      && IntAt(row, Follows) == Some(m.follows)
      && IntAt(row, ProfileActivityTotal) == Some(m.profileActivityTotal)
      && IntAt(row, BioLinkClicks) == Some(m.bioLinkClicks)
  {
  }

  lemma PostSnapshotStampCells(m: PostDailySnapshot, now: DateTime)
    ensures var row := m.ToDict(now);
      && TimeAt(row, CreatedAt) == Some(Stamp(m.createdAt, now))
  {
  }

  /** Only `created_at` is stamped, and the row has no `updated_at`. */
  lemma PostSnapshotStamps(m: PostDailySnapshot, now: DateTime)
    ensures forall c :: c in m.ToDict(now) <==> InPostSnapshot(c)
    ensures UpdatedAt !in m.ToDict(now)
    ensures m.ToDict(now)[CreatedAt] == TimeCell(if m.createdAt.Some? then m.createdAt.value else now)
  {
  }

  lemma PostSnapshotStampedStable(m: PostDailySnapshot, now: DateTime, later: DateTime)
    ensures m.Stamped(now).ToDict(later) == m.ToDict(now)
  {
  }

  // ---------------------------------------------------------------------------
  // FollowerDemographics

  lemma DemographicsRoundTrip(m: FollowerDemographics, now: DateTime)
    ensures DemographicsFromRow(m.ToDict(now)) == Some(m.Stamped(now))
  {
    DemographicsIdentityCells(m, now);
    DemographicsSegmentCells(m, now);
    DemographicsPlaceCells(m, now);
    DemographicsStampCells(m, now);
  }

  lemma DemographicsIdentityCells(m: FollowerDemographics, now: DateTime)
    ensures var row := m.ToDict(now);
      && DateAt(row, SnapshotDate) == Some(m.snapshotDate)
      && TextAt(row, SpaceId) == Some(m.spaceId)
      && TextAt(row, ProfileId) == Some(m.profileId)
  {
  }

  lemma DemographicsSegmentCells(m: FollowerDemographics, now: DateTime)
    ensures var row := m.ToDict(now);
      && JsonAt(row, ProfileUsername) == Some(m.profileUsername)
      && TextAt(row, AgeGroup) == Some(m.ageGroup)
      && TextAt(row, Gender) == Some(m.gender)
  {
  }

  lemma DemographicsPlaceCells(m: FollowerDemographics, now: DateTime)
    ensures var row := m.ToDict(now);
      && TextAt(row, Country) == Some(m.country)
      && TextAt(row, City) == Some(m.city)
  {
  }

  lemma DemographicsStampCells(m: FollowerDemographics, now: DateTime)
    ensures var row := m.ToDict(now);
      && IntAt(row, Followers) == Some(m.followers)
      && TimeAt(row, CreatedAt) == Some(Stamp(m.createdAt, now))
  {
  }

  /** Only `created_at` is stamped, and the row has no `updated_at`. */
  lemma DemographicsStamps(m: FollowerDemographics, now: DateTime)
    ensures forall c :: c in m.ToDict(now) <==> InDemographics(c)
    ensures UpdatedAt !in m.ToDict(now)
    ensures m.ToDict(now)[CreatedAt] == TimeCell(if m.createdAt.Some? then m.createdAt.value else now)
  {
  }

  lemma DemographicsStampedStable(m: FollowerDemographics, now: DateTime, later: DateTime)
    ensures m.Stamped(now).ToDict(later) == m.ToDict(now)
  {
  }

  /** Measures and stamps not supplied to a constructor are `None`. */
  lemma MeasuresDefaultToNone(d: Date, space: string, id: string, user: Json)
    ensures var m := ProfileDailyMetric(d, space, id, user, "instagram");
      && m.followers == m.followersGained == m.unfollowers == m.actualGrowth == None
      && m.reachTotal == m.reachOrganic == m.reachPaid == m.impressions == None
      && m.profileViews == m.bioLinkClicks == None && m.createdAt == m.updatedAt == None
    ensures var p := PostDailySnapshot(d, space, id, user, "p", "", "", None);
      && p.reachTotal == p.impressionsTotal == p.likes == p.comments == p.shares == None
      && p.saves == p.follows == p.profileActivityTotal == p.bioLinkClicks == None && p.createdAt == None
  {
  }
}
