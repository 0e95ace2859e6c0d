/** The canonical row records of the pipeline (src/statusbrew_pipeline/models.py)
    and their `to_dict`, which is `dataclasses.asdict` plus the audit stamps.
    The clock reading `to_dict` takes is the parameter `now`. */
module Models {
  import opened PyValues
  import opened Times

  /** One value of a row dict as it goes to the warehouse. */
  datatype Cell = Value(json: Json) | DateCell(date: Date) | TimeCell(at: DateTime)

  /** The columns the three row records produce; `Name` is the column's name
      in the row dicts and in the warehouse. */
  datatype Column =
    | MetricDate
    | SnapshotDate
    | SpaceId
    | ProfileId
    | ProfileUsername
    | Platform
    | Followers
    | FollowersGained
    | Unfollowers
    | ActualGrowth
    | ReachTotal
    | ReachOrganic
    | ReachPaid
    | Impressions
    | ProfileViews
    | BioLinkClicks
    | CreatedAt
    | UpdatedAt
    | PostId
    | PostPermalink
    | PostType
    | PostPublishedAt
    | ImpressionsTotal
    | Likes
    | Comments
    | Shares
    | Saves
    | Follows
    | ProfileActivityTotal
    | AgeGroup
    | Gender
    | Country
    | City
  {
    function Name(): string {
      match this
      case MetricDate => "date"
      case SnapshotDate => "snapshot_date"
      case SpaceId => "space_id"
      case ProfileId => "profile_id"
      case ProfileUsername => "profile_username"
      case Platform => "platform"
      case Followers => "followers"
      case FollowersGained => "followers_gained"
      case Unfollowers => "unfollowers"
      case ActualGrowth => "actual_growth"
      case ReachTotal => "reach_total"
      case ReachOrganic => "reach_organic"
      case ReachPaid => "reach_paid"
      case Impressions => "impressions"
      case ProfileViews => "profile_views"
      case BioLinkClicks => "bio_link_clicks"
      case CreatedAt => "created_at"
      case UpdatedAt => "updated_at"
      case PostId => "post_id"
      case PostPermalink => "post_permalink"
      case PostType => "post_type"
      case PostPublishedAt => "post_published_at"
      case ImpressionsTotal => "impressions_total"
      case Likes => "likes"
      case Comments => "comments"
      case Shares => "shares"
      case Saves => "saves"
      case Follows => "follows"
      case ProfileActivityTotal => "profile_activity_total"
      case AgeGroup => "age_group"
      case Gender => "gender"
      case Country => "country"
      case City => "city"
    }
  }

  /** A row dict, by column. */
  type Row = map<Column, Cell>

  // ---------------------------------------------------------------------------
  // Cells: what `asdict` stores for a field of each type, and reading it back

  /** An `Optional[int]` field. */
  function IntCell(o: Option<int>): (c: Cell)
    ensures IntOfCell(c) == Some(o)
  {
    match o
    case None => Value(JNull)
    case Some(i) => Value(JInt(i))
  }

  /** A `str` field. */
  function TextCell(s: string): (c: Cell)
    ensures TextOfCell(c) == Some(s)
  {
    Value(JStr(s))
  }

  /** An `Optional[datetime]` field. */
  function OptTimeCell(o: Option<DateTime>): (c: Cell)
    ensures OptTimeOfCell(c) == Some(o)
  {
    match o
    case None => Value(JNull)
    case Some(t) => TimeCell(t)
  }

  /** `self.field or now`: a `datetime` is always truthy, so a present stamp is kept. */
  function Stamp(field: Option<DateTime>, now: DateTime): (r: DateTime)
    ensures field.Some? ==> r == field.value
    ensures field.None? ==> r == now
  {
    field.GetOr(now)
  }

  function IntOfCell(c: Cell): Option<Option<int>> {
    match c
    case Value(JNull) => Some(None)
    case Value(JInt(i)) => Some(Some(i))
    case _ => None
  }

  function TextOfCell(c: Cell): Option<string> {
    match c
    case Value(JStr(s)) => Some(s)
    case _ => None
  }

  function OptTimeOfCell(c: Cell): Option<Option<DateTime>> {
    match c
    case TimeCell(t) => Some(Some(t))
    case Value(JNull) => Some(None)
    case _ => None
  }

  function IntAt(row: Row, c: Column): Option<Option<int>> {
    if c in row then IntOfCell(row[c]) else None
  }

  function TextAt(row: Row, c: Column): Option<string> {
    if c in row then TextOfCell(row[c]) else None
  }

  function OptTimeAt(row: Row, c: Column): Option<Option<DateTime>> {
    if c in row then OptTimeOfCell(row[c]) else None
  }

  function JsonAt(row: Row, c: Column): Option<Json> {
    if c in row && row[c].Value? then Some(row[c].json) else None
  }

  function DateAt(row: Row, c: Column): Option<Date> {
    if c in row && row[c].DateCell? then Some(row[c].date) else None
  }

  function TimeAt(row: Row, c: Column): Option<DateTime> {
    if c in row && row[c].TimeCell? then Some(row[c].at) else None
  }

  // ---------------------------------------------------------------------------
  // ProfileDailyMetric

  /** The keys of `to_dict()` of a `ProfileDailyMetric`. */
  predicate InProfileDaily(c: Column) {
    match c
    case MetricDate | SpaceId | ProfileId | ProfileUsername
      | Platform | Followers | FollowersGained | Unfollowers
      | ActualGrowth | ReachTotal | ReachOrganic | ReachPaid
      | Impressions | ProfileViews | BioLinkClicks | CreatedAt
      | UpdatedAt => true
    case _ => false
  }

  /** Daily account metrics of one profile. The measures default to `None`,
      as do the two audit stamps. */
  datatype ProfileDailyMetric = ProfileDailyMetric(
    date: Date,
    spaceId: string,
    profileId: string,
    profileUsername: Json,
    platform: string,
    followers: Option<int> := None,
    followersGained: Option<int> := None,
    unfollowers: Option<int> := None,
    actualGrowth: Option<int> := None,
    reachTotal: Option<int> := None,
    reachOrganic: Option<int> := None,
    reachPaid: Option<int> := None,
    impressions: Option<int> := None,
    profileViews: Option<int> := None,
    bioLinkClicks: Option<int> := None,
    createdAt: Option<DateTime> := None,
    updatedAt: Option<DateTime> := None)
  {
    /** The record with both stamps filled from the one clock reading `now`. */
    function Stamped(now: DateTime): ProfileDailyMetric {
      this.(createdAt := Some(Stamp(createdAt, now)), updatedAt := Some(Stamp(updatedAt, now)))
    }

    /** The value `to_dict()` stores under column `c`. */
    function Field(c: Column, now: DateTime): Cell {
      match c
      case MetricDate => DateCell(date)
      case SpaceId => TextCell(spaceId)
      case ProfileId => TextCell(profileId)
      case ProfileUsername => Value(profileUsername)
      case Platform => TextCell(platform)
      case Followers => IntCell(followers)
      case FollowersGained => IntCell(followersGained)
      case Unfollowers => IntCell(unfollowers)
      case ActualGrowth => IntCell(actualGrowth)
      case ReachTotal => IntCell(reachTotal)
      case ReachOrganic => IntCell(reachOrganic)
      case ReachPaid => IntCell(reachPaid)
      case Impressions => IntCell(impressions)
      case ProfileViews => IntCell(profileViews)
      case BioLinkClicks => IntCell(bioLinkClicks)
      case CreatedAt => TimeCell(Stamp(createdAt, now))
      case UpdatedAt => TimeCell(Stamp(updatedAt, now))
      case _ => Value(JNull)
    }

    /** `to_dict()` with the clock reading `now`: `asdict` plus the stamps. */
    function ToDict(now: DateTime): Row {
      map c | InProfileDaily(c) :: Field(c, now)
    }
  }

  /** Reads a `ProfileDailyMetric` back from a row dict; `None` when a column
      is missing or holds a value of the wrong type. */
  function ProfileDailyFromRow(row: Row): Option<ProfileDailyMetric> {
    if && DateAt(row, MetricDate).Some? && TextAt(row, SpaceId).Some? && TextAt(row, ProfileId).Some?
       && JsonAt(row, ProfileUsername).Some? && TextAt(row, Platform).Some?
       && IntAt(row, Followers).Some? && IntAt(row, FollowersGained).Some?
       && IntAt(row, Unfollowers).Some? && IntAt(row, ActualGrowth).Some?
       && IntAt(row, ReachTotal).Some? && IntAt(row, ReachOrganic).Some? && IntAt(row, ReachPaid).Some?
       && IntAt(row, Impressions).Some? && IntAt(row, ProfileViews).Some? && IntAt(row, BioLinkClicks).Some?
       && TimeAt(row, CreatedAt).Some? && TimeAt(row, UpdatedAt).Some?
    then Some(ProfileDailyMetric(
      DateAt(row, MetricDate).value, TextAt(row, SpaceId).value, TextAt(row, ProfileId).value,
      JsonAt(row, ProfileUsername).value, TextAt(row, Platform).value,
      IntAt(row, Followers).value, IntAt(row, FollowersGained).value,
      IntAt(row, Unfollowers).value, IntAt(row, ActualGrowth).value,
      IntAt(row, ReachTotal).value, IntAt(row, ReachOrganic).value, IntAt(row, ReachPaid).value,
      IntAt(row, Impressions).value, IntAt(row, ProfileViews).value, IntAt(row, BioLinkClicks).value,
      Some(TimeAt(row, CreatedAt).value), Some(TimeAt(row, UpdatedAt).value)))
    else None
  }

  // ---------------------------------------------------------------------------
  // PostDailySnapshot

  /** The keys of `to_dict()` of a `PostDailySnapshot`; there is no `updated_at`. */
  predicate InPostSnapshot(c: Column) {
    match c
    case SnapshotDate | SpaceId | ProfileId | ProfileUsername
      | PostId | PostPermalink | PostType | PostPublishedAt
      | ReachTotal | ImpressionsTotal | Likes | Comments
      | Shares | Saves | Follows | ProfileActivityTotal
      | BioLinkClicks | CreatedAt => true
    case _ => false
  }

  /** One day's metrics of one post. */
  datatype PostDailySnapshot = PostDailySnapshot(
    snapshotDate: Date,
    spaceId: string,
    profileId: string,
    profileUsername: Json,
    postId: string,
    postPermalink: string,
    postType: string,
    postPublishedAt: Option<DateTime>,
    reachTotal: Option<int> := None,
    impressionsTotal: Option<int> := None,
    likes: Option<int> := None,
    comments: Option<int> := None,
    shares: Option<int> := None,
    saves: Option<int> := None,
    follows: Option<int> := None,
    profileActivityTotal: Option<int> := None,
    bioLinkClicks: Option<int> := None,
    createdAt: Option<DateTime> := None)
  {
    function Stamped(now: DateTime): PostDailySnapshot {
      this.(createdAt := Some(Stamp(createdAt, now)))
    }

    /** The value `to_dict()` stores under column `c`. */
    function Field(c: Column, now: DateTime): Cell {
      match c
      case SnapshotDate => DateCell(snapshotDate)
      case SpaceId => TextCell(spaceId)
      case ProfileId => TextCell(profileId)
      case ProfileUsername => Value(profileUsername)
      case PostId => TextCell(postId)
      case PostPermalink => TextCell(postPermalink)
      case PostType => TextCell(postType)
      case PostPublishedAt => OptTimeCell(postPublishedAt)
      case ReachTotal => IntCell(reachTotal)
      case ImpressionsTotal => IntCell(impressionsTotal)
      case Likes => IntCell(likes)
      case Comments => IntCell(comments)
      case Shares => IntCell(shares)
      case Saves => IntCell(saves)
      case Follows => IntCell(follows)
      case ProfileActivityTotal => IntCell(profileActivityTotal)
      case BioLinkClicks => IntCell(bioLinkClicks)
      case CreatedAt => TimeCell(Stamp(createdAt, now))
      case _ => Value(JNull)
    }

    /** `to_dict()` with the clock reading `now`: `asdict` plus the stamp. */
    function ToDict(now: DateTime): Row {
      map c | InPostSnapshot(c) :: Field(c, now)
    }
  }

  function PostSnapshotFromRow(row: Row): Option<PostDailySnapshot> {
    if && DateAt(row, SnapshotDate).Some? && TextAt(row, SpaceId).Some? && TextAt(row, ProfileId).Some?
       && JsonAt(row, ProfileUsername).Some? && TextAt(row, PostId).Some? && TextAt(row, PostPermalink).Some?
       && TextAt(row, PostType).Some? && OptTimeAt(row, PostPublishedAt).Some?
       && IntAt(row, ReachTotal).Some? && IntAt(row, ImpressionsTotal).Some? && IntAt(row, Likes).Some?
       && IntAt(row, Comments).Some? && IntAt(row, Shares).Some? && IntAt(row, Saves).Some?
       && IntAt(row, Follows).Some? && IntAt(row, ProfileActivityTotal).Some? && IntAt(row, BioLinkClicks).Some?
       && TimeAt(row, CreatedAt).Some?
    then Some(PostDailySnapshot(
      DateAt(row, SnapshotDate).value, TextAt(row, SpaceId).value, TextAt(row, ProfileId).value,
      JsonAt(row, ProfileUsername).value, TextAt(row, PostId).value, TextAt(row, PostPermalink).value,
      TextAt(row, PostType).value, OptTimeAt(row, PostPublishedAt).value,
      IntAt(row, ReachTotal).value, IntAt(row, ImpressionsTotal).value, IntAt(row, Likes).value,
      IntAt(row, Comments).value, IntAt(row, Shares).value, IntAt(row, Saves).value,
      IntAt(row, Follows).value, IntAt(row, ProfileActivityTotal).value, IntAt(row, BioLinkClicks).value,
      Some(TimeAt(row, CreatedAt).value)))
    else None
  }

  // ---------------------------------------------------------------------------
  // FollowerDemographics

  /** The keys of `to_dict()` of a `FollowerDemographics`; there is no `updated_at`. */
  predicate InDemographics(c: Column) {
    match c
    case SnapshotDate | SpaceId | ProfileId | ProfileUsername
      | AgeGroup | Gender | Country | City
      | Followers | CreatedAt => true
    case _ => false
  }

  /** Follower count of one profile in one audience segment. */
  datatype FollowerDemographics = FollowerDemographics(
    snapshotDate: Date,
    spaceId: string,
    profileId: string,
    profileUsername: Json,
    ageGroup: string,
    gender: string,
    country: string,
    city: string,
    followers: Option<int>,
    createdAt: Option<DateTime> := None)
  {
    function Stamped(now: DateTime): FollowerDemographics {
      this.(createdAt := Some(Stamp(createdAt, now)))
    }

    /** The value `to_dict()` stores under column `c`. */
    function Field(c: Column, now: DateTime): Cell {
      match c
      case SnapshotDate => DateCell(snapshotDate)
      case SpaceId => TextCell(spaceId)
      case ProfileId => TextCell(profileId)
      case ProfileUsername => Value(profileUsername)
      case AgeGroup => TextCell(ageGroup)
      case Gender => TextCell(gender)
      case Country => TextCell(country)
      case City => TextCell(city)
      case Followers => IntCell(followers)
      case CreatedAt => TimeCell(Stamp(createdAt, now))
      case _ => Value(JNull)
    }

    /** `to_dict()` with the clock reading `now`: `asdict` plus the stamp. */
    function ToDict(now: DateTime): Row {
      map c | InDemographics(c) :: Field(c, now)
    }
  }

  function DemographicsFromRow(row: Row): Option<FollowerDemographics> {
    if && DateAt(row, SnapshotDate).Some? && TextAt(row, SpaceId).Some? && TextAt(row, ProfileId).Some?
       && JsonAt(row, ProfileUsername).Some? && TextAt(row, AgeGroup).Some? && TextAt(row, Gender).Some?
       && TextAt(row, Country).Some? && TextAt(row, City).Some? && IntAt(row, Followers).Some?
       && TimeAt(row, CreatedAt).Some?
    then Some(FollowerDemographics(
      DateAt(row, SnapshotDate).value, TextAt(row, SpaceId).value, TextAt(row, ProfileId).value,
      JsonAt(row, ProfileUsername).value, TextAt(row, AgeGroup).value, TextAt(row, Gender).value,
      TextAt(row, Country).value, TextAt(row, City).value, IntAt(row, Followers).value,
      Some(TimeAt(row, CreatedAt).value)))
    else None
  }
}
