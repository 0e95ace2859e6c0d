/** The Statusbrew API client (src/statusbrew_pipeline/statusbrew_client.py):
    bounded retries of one request, envelope unwrapping, and the insights
    queries the three jobs send. The HTTP server is the function `server`,
    which answers a request given every request sent so far, that one last. */
module Client {
  import opened Strings
  import opened PyValues
  import opened Times

  /** A request: method, path under the base URL, and the JSON body if any. */
  datatype HttpRequest = HttpRequest(verb: string, path: string, body: Option<Json>)

  /** What one exchange gave: no response at all, or a status and a body that
      decodes as JSON (`Some`) or does not (`None`). */
  datatype Exchange = Unreachable(detail: string) | Answered(status: int, body: Option<Json>)

  /** One pass through the `with attempt:` block. */
  datatype Attempt =
    | Succeeded(data: Json)   // `return response.json()`
    | Retryable(error: Error) // a `StatusbrewError`, which the retryer retries
    | Fatal(error: Error)     // any other exception, which leaves the loop at once

  /** `request` / `raise_for_status()` / `json()`, with every `httpx.HTTPError`
      (a transport failure, any status outside 2xx) wrapped as `StatusbrewError`. */
  function AttemptOf(x: Exchange): (a: Attempt)
    ensures a.Retryable? <==> x.Unreachable? || !(200 <= x.status < 300)
    ensures a.Retryable? ==> a.error.StatusbrewError?
    ensures a.Succeeded? <==> x.Answered? && 200 <= x.status < 300 && x.body.Some?
  {
    match x
    case Unreachable(detail) => Retryable(StatusbrewError(Transport(detail)))
    case Answered(status, body) =>
      if !(200 <= status < 300) then Retryable(StatusbrewError(HttpStatus(status)))
      else if body.None? then Fatal(JsonDecodeError)
      else Succeeded(body.value)
  }

  /** `stop_after_attempt(retries)`: the retryer always makes a first attempt and
      stops once `retries` attempts have been made. */
  function MaxAttempts(retries: int): (n: nat)
    ensures n >= 1 && (retries >= 1 ==> n == retries)
  {
    if retries < 1 then 1 else retries
  }

  /** The result of a call to the API and every request sent up to its end. */
  datatype Fetched = Fetched(result: Result<Json>, sent: seq<HttpRequest>)

  /** `_request(req)` with `left` attempts to go, after `sent`: the first
      success is returned, a fatal error is raised at once, and when the last
      attempt fails its `StatusbrewError` itself is re-raised (`reraise=True`). */
  function Attempts(server: seq<HttpRequest> -> Exchange, sent: seq<HttpRequest>, req: HttpRequest, left: nat): (f: Fetched)
    requires left >= 1
    ensures |sent| < |f.sent| <= |sent| + left
    ensures f.sent == sent + Repeat(req, |f.sent| - |sent|)
    decreases left
  {
    var now := sent + [req];
    match AttemptOf(server(now))
    case Succeeded(data) => Fetched(Ok(data), now)
    case Fatal(e) => Fetched(Err(e), now)
    case Retryable(e) =>
      if left == 1 then Fetched(Err(e), now)
      else
        var rest := Attempts(server, now, req, left - 1);
        assert now + Repeat(req, |rest.sent| - |now|) == sent + Repeat(req, |rest.sent| - |sent|) by {
          RepeatCons(req, |rest.sent| - |now|);
        }
        rest
  }

  function Repeat(req: HttpRequest, n: nat): (r: seq<HttpRequest>)
    ensures |r| == n && forall i :: 0 <= i < n ==> r[i] == req
  {
    if n == 0 then [] else [req] + Repeat(req, n - 1)
  }

  lemma RepeatCons(req: HttpRequest, n: nat)
    ensures [req] + Repeat(req, n) == Repeat(req, n + 1)
  {
  }

  /** The `i`-th attempt after `sent` (counting from 0) fails with a `StatusbrewError`. */
  predicate RetryableAt(server: seq<HttpRequest> -> Exchange, sent: seq<HttpRequest>, req: HttpRequest, i: nat) {
    AttemptOf(server(sent + Repeat(req, i + 1))).Retryable?
  }

  /** The first attempt that succeeds ends the call with its data; nothing is
      sent after it. */
  lemma {:induction false} AttemptsFirstSuccess(server: seq<HttpRequest> -> Exchange, sent: seq<HttpRequest>,
                                                req: HttpRequest, left: nat, k: nat)
    requires k < left
    requires forall i :: 0 <= i < k ==> RetryableAt(server, sent, req, i)
    requires AttemptOf(server(sent + Repeat(req, k + 1))).Succeeded?
    ensures Attempts(server, sent, req, left)
         == Fetched(Ok(AttemptOf(server(sent + Repeat(req, k + 1))).data), sent + Repeat(req, k + 1))
    decreases k
  {
    assert sent + Repeat(req, 1) == sent + [req];
    if k > 0 {
      var now := sent + [req];
      assert RetryableAt(server, sent, req, 0);
      forall i | 0 <= i < k - 1
        ensures RetryableAt(server, now, req, i)
      {
        RepeatShift(sent, req, i + 1);
        assert RetryableAt(server, sent, req, i + 1);
      }
      RepeatShift(sent, req, k);
      AttemptsFirstSuccess(server, now, req, left - 1, k - 1);
    }
  }

  lemma RepeatShift(sent: seq<HttpRequest>, req: HttpRequest, n: nat)
    ensures sent + [req] + Repeat(req, n) == sent + Repeat(req, n + 1)
  {
    RepeatCons(req, n);
  }

  /** When every attempt fails with a `StatusbrewError`, exactly `left`
      requests are sent and the last attempt's error is raised. */
  lemma {:induction false} AttemptsAllFail(server: seq<HttpRequest> -> Exchange, sent: seq<HttpRequest>,
                                           req: HttpRequest, left: nat)
    requires left >= 1
    requires forall i :: 0 <= i < left ==> RetryableAt(server, sent, req, i)
    ensures RetryableAt(server, sent, req, left - 1)
    ensures Attempts(server, sent, req, left)
         == Fetched(Err(AttemptOf(server(sent + Repeat(req, left))).error), sent + Repeat(req, left))
    decreases left
  {
    assert sent + Repeat(req, 1) == sent + [req];
    assert RetryableAt(server, sent, req, 0);
    if left > 1 {
      var now := sent + [req];
      forall i | 0 <= i < left - 1
        ensures RetryableAt(server, now, req, i)
      {
        RepeatShift(sent, req, i + 1);
        assert RetryableAt(server, sent, req, i + 1);
      }
      RepeatShift(sent, req, left - 1);
      AttemptsAllFail(server, now, req, left - 1);
    }
  }

  /** A response whose body is not JSON is not retried: the error is raised
      after the one request. */
  lemma AttemptsFatalNotRetried(server: seq<HttpRequest> -> Exchange, sent: seq<HttpRequest>, req: HttpRequest, left: nat)
    requires left >= 1 && AttemptOf(server(sent + [req])).Fatal?
    ensures Attempts(server, sent, req, left) == Fetched(Err(JsonDecodeError), sent + [req])
  {
  }

  /** `data.get("data") or data.get(alt) or data`: a dict's truthy `data`, else
      its truthy `alt`, else the dict itself; anything but a dict has no `.get`. */
  function Unwrap(data: Json, alt: string): (r: Result<Json>)
    ensures !data.JObj? ==> r == Err(AttributeError)
    ensures data.JObj? ==> r.Ok?
  {
    match data
    case JObj(ms) =>
      var first := Lookup(ms, "data").GetOr(JNull);
      if Truthy(first) then Ok(first)
      else
        var second := Lookup(ms, alt).GetOr(JNull);
        if Truthy(second) then Ok(second) else Ok(data)
    case _ => Err(AttributeError)
  }

  /** The envelope's meaning: `data` wins when truthy, then `alt`, then the whole body. */
  lemma UnwrapOrder(ms: seq<Member>, alt: string)
    ensures Lookup(ms, "data").Some? && Truthy(Lookup(ms, "data").value)
        ==> Unwrap(JObj(ms), alt) == Ok(Lookup(ms, "data").value)
    ensures !(Lookup(ms, "data").Some? && Truthy(Lookup(ms, "data").value))
        && Lookup(ms, alt).Some? && Truthy(Lookup(ms, alt).value)
        ==> Unwrap(JObj(ms), alt) == Ok(Lookup(ms, alt).value)
    ensures !(Lookup(ms, "data").Some? && Truthy(Lookup(ms, "data").value))
        && !(Lookup(ms, alt).Some? && Truthy(Lookup(ms, alt).value))
        ==> Unwrap(JObj(ms), alt) == Ok(JObj(ms))
  {
  }

  /** An empty `data` list with no truthy alternative gives back the envelope
      itself, so a caller that iterates the result sees the envelope's keys. */
  lemma UnwrapEmptyEnvelope()
    ensures Unwrap(JObj([Member("data", JList([]))]), "rows") == Ok(JObj([Member("data", JList([]))]))
    ensures Iterate(JObj([Member("data", JList([]))])) == Ok([JStr("data")])
  {
    var it := Iterate(JObj([Member("data", JList([]))]));
    assert |it.value| == 1 && it.value[0] == JStr("data");
    assert it.value == [JStr("data")];
  }

  /** The parts of an insights request. */
  datatype InsightsQuery = InsightsQuery(
    metrics: seq<string>,
    dimensions: seq<string>,
    timeRange: Json,
    filters: Json,
    granularity: Json)

  function StringList(xs: seq<string>): (r: Json)
    ensures r.JList? && |r.items| == |xs| && forall i :: 0 <= i < |xs| ==> r.items[i] == JStr(xs[i])
  {
    JList(seq(|xs|, i requires 0 <= i < |xs| => JStr(xs[i])))
  }

  /** `{"since": str(since), "until": str(until)}`. */
  function TimeRange(since: Date, until: Date): Json {
    JObj([Member("since", JStr(IsoDate(since))), Member("until", JStr(IsoDate(until)))])
  }

  /** `{"profile_ids": ids, "platforms": ["instagram"]}`. */
  function InstagramFilter(ids: seq<Json>): Json {
    JObj([Member("profile_ids", JList(ids)), Member("platforms", JList([JStr("instagram")]))])
  }

  /** The metrics and dimensions each fetch asks for. */
  const ProfileDailyMetrics: seq<string> := ["followers", "followers_gained", "unfollowers", "actual_growth", "reach",
    "reach_from_organic", "reach_from_paid", "impressions", "profile_views", "bio_link_clicks"]
  const ProfileDailyDimensions: seq<string> := ["date", "profile"]
  const PostSnapshotsMetrics: seq<string> := ["post_reach", "post_impressions", "post_reactions", "post_comments",
    "post_shares", "post_saved", "post_follows", "post_profile_activity_total", "post_profile_activity_bio_link_clicked"]
  const PostSnapshotsDimensions: seq<string> := ["post", "profile"]
  const DemographicsMetrics: seq<string> := ["followers"]
  const DemographicsDimensions: seq<string> := ["profile", "gender", "age", "country", "city"]

  function ProfileDailyQuery(profileId: Json, target: Date): InsightsQuery {
    InsightsQuery(
      ProfileDailyMetrics,
      ProfileDailyDimensions,
      TimeRange(target, target),
      InstagramFilter([profileId]),
      JStr("day"))
  }

  function PostSnapshotsQuery(profileIds: seq<Json>, since: Date, until: Date): InsightsQuery {
    InsightsQuery(
      PostSnapshotsMetrics,
      PostSnapshotsDimensions,
      TimeRange(since, until),
      InstagramFilter(profileIds),
      JNull)
  }

  function DemographicsQuery(profileId: Json, snapshot: Date): InsightsQuery {
    InsightsQuery(
      DemographicsMetrics,
      DemographicsDimensions,
      TimeRange(snapshot, snapshot),
      InstagramFilter([profileId]),
      JNull)
  }

  /** The three members every insights body starts with. */
  function BodyHead(q: InsightsQuery): seq<Member> {
    [Member("metrics", StringList(q.metrics)), Member("dimensions", StringList(q.dimensions)),
     Member("time_range", q.timeRange)]
  }

  /** A member that is only set when its value is truthy. */
  function IfTruthy(key: string, v: Json): seq<Member> {
    if Truthy(v) then [Member(key, v)] else []
  }

  /** The body `insights` posts. */
  function InsightsBody(q: InsightsQuery): Json {
    JObj(BodyHead(q) + (IfTruthy("filters", q.filters) + IfTruthy("granularity", q.granularity)))
  }

  /** Looking past members with other keys. */
  lemma {:induction false} LookupSkip(pre: seq<Member>, rest: seq<Member>, key: string)
    requires Lookup(pre, key).None?
    ensures Lookup(pre + rest, key) == Lookup(rest, key)
  {
    if pre != [] {
      assert (pre + rest)[1..] == pre[1..] + rest;
      LookupSkip(pre[1..], rest, key);
    } else {
      assert pre + rest == rest;
    }
  }

  /** A key found in a prefix is found there in the whole. */
  lemma {:induction false} LookupFirst(pre: seq<Member>, rest: seq<Member>, key: string)
    requires Lookup(pre, key).Some?
    ensures Lookup(pre + rest, key) == Lookup(pre, key)
  {
    assert (pre + rest)[0] == pre[0];
    if pre[0].key != key {
      assert (pre + rest)[1..] == pre[1..] + rest;
      LookupFirst(pre[1..], rest, key);
    }
  }

  /** Looking a key up among three members. */
  lemma LookupThree(a: Member, b: Member, c: Member, key: string)
    ensures Lookup([a, b, c], key)
         == if a.key == key then Some(a.value) else if b.key == key then Some(b.value)
            else if c.key == key then Some(c.value) else None
  {
    assert [a, b, c][1..] == [b, c] && [b, c][1..] == [c] && [c][1..] == [];
    if a.key != key {
      assert Lookup([a, b, c], key) == Lookup([b, c], key);
      if b.key != key {
        assert Lookup([b, c], key) == Lookup([c], key);
      }
    }
  }

  /** The body `insights` posts carries `metrics`, `dimensions` and
      `time_range` always, `filters` and `granularity` exactly when truthy. */
  lemma InsightsBodyFields(q: InsightsQuery)
    ensures var ms := InsightsBody(q).members;
      && Lookup(ms, "metrics") == Some(StringList(q.metrics))
      && Lookup(ms, "dimensions") == Some(StringList(q.dimensions))
      && Lookup(ms, "time_range") == Some(q.timeRange)
      && Lookup(ms, "filters") == (if Truthy(q.filters) then Some(q.filters) else None)
      && Lookup(ms, "granularity") == (if Truthy(q.granularity) then Some(q.granularity) else None)
  {
    var head := BodyHead(q);
    var f := IfTruthy("filters", q.filters);
    var g := IfTruthy("granularity", q.granularity);
    LookupThree(head[0], head[1], head[2], "metrics");
    LookupThree(head[0], head[1], head[2], "dimensions");
    LookupThree(head[0], head[1], head[2], "time_range");
    LookupThree(head[0], head[1], head[2], "filters");
    LookupThree(head[0], head[1], head[2], "granularity");
    LookupFirst(head, f + g, "metrics");
    LookupFirst(head, f + g, "dimensions");
    LookupFirst(head, f + g, "time_range");
    LookupSkip(head, f + g, "filters");
    LookupSkip(head, f + g, "granularity");
    LookupSkip(f, g, "granularity");
    if Truthy(q.filters) {
      LookupFirst(f, g, "filters");
    } else {
      assert f + g == g;
    }
  }

  /** Setting `filters` and then `granularity`, each only when truthy, on a
      dict that has neither appends them in that order. */
  lemma SetOptionalMembers(head: seq<Member>, filters: Json, granularity: Json)
    requires Lookup(head, "filters").None? && Lookup(head, "granularity").None?
    ensures var withFilters := if Truthy(filters) then SetItem(head, "filters", filters) else head;
      (if Truthy(granularity) then SetItem(withFilters, "granularity", granularity) else withFilters)
        == head + (IfTruthy("filters", filters) + IfTruthy("granularity", granularity))
  {
    var f := IfTruthy("filters", filters);
    var g := IfTruthy("granularity", granularity);
    LookupSkip(f, [], "granularity");
    if Truthy(filters) {
      SetItemAppends(head, "filters", filters);
    }
    var withFilters := if Truthy(filters) then SetItem(head, "filters", filters) else head;
    assert withFilters == head + f;
    if Truthy(granularity) {
      LookupSkip(head, f, "granularity");
      SetItemAppends(withFilters, "granularity", granularity);
    }
    assert head + f + g == head + (f + g);
  }

  /** Building the body the way `insights` does, by setting `filters` and then
      `granularity` on the three-member dict, gives `InsightsBody`. */
  lemma BodyBuiltInPlace(q: InsightsQuery)
    ensures var withFilters := if Truthy(q.filters) then SetItem(BodyHead(q), "filters", q.filters) else BodyHead(q);
      JObj(if Truthy(q.granularity) then SetItem(withFilters, "granularity", q.granularity) else withFilters)
        == InsightsBody(q)
  {
    var head := BodyHead(q);
    LookupThree(head[0], head[1], head[2], "filters");
    LookupThree(head[0], head[1], head[2], "granularity");
    SetOptionalMembers(head, q.filters, q.granularity);
  }

  /** `d[key] = v` on a dict without `key` appends the member. */
  lemma {:induction false} SetItemAppends(ms: seq<Member>, key: string, v: Json)
    requires Lookup(ms, key).None?
    ensures SetItem(ms, key, v) == ms + [Member(key, v)]
  {
    if ms != [] {
      SetItemAppends(ms[1..], key, v);
      assert [ms[0]] + (ms[1..] + [Member(key, v)]) == ms + [Member(key, v)];
    }
  }

  /** The profile-daily and demographics queries cover the one given day and
      filter on the one profile on Instagram; only profile-daily asks for a
      daily granularity. */
  lemma SingleDayQueries(profileId: Json, d: Date)
    ensures var p := ProfileDailyQuery(profileId, d);
      && p.timeRange == TimeRange(d, d) && p.filters == InstagramFilter([profileId])
      && Lookup(InsightsBody(p).members, "granularity") == Some(JStr("day"))
    ensures var q := DemographicsQuery(profileId, d);
      && q.timeRange == TimeRange(d, d) && q.filters == InstagramFilter([profileId])
      && Lookup(InsightsBody(q).members, "granularity") == None
      && Lookup(InsightsBody(q).members, "filters") == Some(InstagramFilter([profileId]))
  {
    InsightsBodyFields(ProfileDailyQuery(profileId, d));
    InsightsBodyFields(DemographicsQuery(profileId, d));
  }

  /** The post query passes its range and the whole id list through, with no granularity. */
  lemma PostQueryPassesThrough(ids: seq<Json>, since: Date, until: Date)
    ensures var ms := InsightsBody(PostSnapshotsQuery(ids, since, until)).members;
      && Lookup(ms, "time_range") == Some(TimeRange(since, until))
      && Lookup(ms, "filters") == Some(InstagramFilter(ids))
      && Lookup(ms, "granularity") == None
  {
    var q := PostSnapshotsQuery(ids, since, until);
    assert Truthy(q.filters) && !Truthy(q.granularity);
    InsightsBodyFields(q);
  }

  function ProfilesRequest(spaceId: string): HttpRequest {
    HttpRequest("GET", "/v1/spaces/" + spaceId + "/social_profiles", None)
  }

  function InsightsRequest(spaceId: string, q: InsightsQuery): HttpRequest {
    HttpRequest("POST", "/v1/spaces/" + spaceId + "/insights", Some(InsightsBody(q)))
  }

  /** `_request` followed by the envelope unwrapping of `list_profiles` (`alt`
      is `profiles`) or of `insights` (`alt` is `rows`). */
  function CallSpec(server: seq<HttpRequest> -> Exchange, sent: seq<HttpRequest>, retries: int,
                    req: HttpRequest, alt: string): (f: Fetched)
    ensures |sent| < |f.sent| <= |sent| + MaxAttempts(retries) && f.sent[..|sent|] == sent
  {
    var answer := Attempts(server, sent, req, MaxAttempts(retries));
    match answer.result
    case Ok(data) => Fetched(Unwrap(data, alt), answer.sent)
    case Err(e) => answer
  }

  function ListProfilesSpec(server: seq<HttpRequest> -> Exchange, sent: seq<HttpRequest>, retries: int,
                            spaceId: string): Fetched {
    CallSpec(server, sent, retries, ProfilesRequest(spaceId), "profiles")
  }

  function InsightsSpec(server: seq<HttpRequest> -> Exchange, sent: seq<HttpRequest>, retries: int,
                        spaceId: string, q: InsightsQuery): Fetched {
    CallSpec(server, sent, retries, InsightsRequest(spaceId, q), "rows")
  }

  /** `StatusbrewClient`: the base URL without trailing slashes, the retry
      budget, and the requests sent so far. */
  class StatusbrewClient {
    const baseUrl: string
    const timeoutSeconds: int
    const retries: int
    const server: seq<HttpRequest> -> Exchange
    var sent: seq<HttpRequest>

    constructor(baseUrl: string, accessToken: string, timeoutSeconds: int, retries: int,
                server: seq<HttpRequest> -> Exchange)
      ensures this.baseUrl == RStripChar(baseUrl, '/')
      ensures this.timeoutSeconds == timeoutSeconds && this.retries == retries && this.server == server
      ensures sent == []
    {
      this.baseUrl := RStripChar(baseUrl, '/');
      this.timeoutSeconds := timeoutSeconds;
      this.retries := retries;
      this.server := server;
      this.sent := [];
    }

    /** `_request`: the retryer's loop. */
    method Request(req: HttpRequest) returns (r: Result<Json>)
      modifies this
      ensures Fetched(r, sent) == Attempts(server, old(sent), req, MaxAttempts(retries))
    {
      var limit := MaxAttempts(retries);
      var n := 1;
      while true
        invariant 1 <= n <= limit
        invariant Attempts(server, sent, req, limit - n + 1) == Attempts(server, old(sent), req, limit)
        decreases limit - n
      {
        sent := sent + [req];
        var attempt := AttemptOf(server(sent));
        match attempt {
          case Succeeded(data) =>
            return Ok(data);
          case Fatal(e) =>
            return Err(e);
          case Retryable(e) =>
            if n == limit {
              return Err(e);
            }
        }
        n := n + 1;
      }
    }

    /** `list_profiles(space_id)`. */
    method ListProfiles(spaceId: string) returns (r: Result<Json>)
      modifies this
      ensures Fetched(r, sent) == ListProfilesSpec(server, old(sent), retries, spaceId)
    {
      var data := Request(ProfilesRequest(spaceId));
      if data.Err? {
        return data;
      }
      r := Unwrap(data.value, "profiles");
    }

    /** `insights(space_id, metrics, dimensions, time_range, filters, granularity)`:
        the body is built and extended in place, then posted. */
    method Insights(spaceId: string, q: InsightsQuery) returns (r: Result<Json>)
      modifies this
      ensures Fetched(r, sent) == InsightsSpec(server, old(sent), retries, spaceId, q)
    {
      BodyBuiltInPlace(q);
      var body := BodyHead(q);
      if Truthy(q.filters) {
        body := SetItem(body, "filters", q.filters);
      }
      if Truthy(q.granularity) {
        body := SetItem(body, "granularity", q.granularity);
      }
      var data := Request(HttpRequest("POST", "/v1/spaces/" + spaceId + "/insights", Some(JObj(body))));
      if data.Err? {
        return data;
      }
      r := Unwrap(data.value, "rows");
    }

    method FetchProfileDailyMetrics(spaceId: string, profileId: Json, target: Date) returns (r: Result<Json>)
      modifies this
      ensures Fetched(r, sent) == InsightsSpec(server, old(sent), retries, spaceId, ProfileDailyQuery(profileId, target))
    {
      r := Insights(spaceId, ProfileDailyQuery(profileId, target));
    }

    method FetchPostSnapshots(spaceId: string, profileIds: seq<Json>, since: Date, until: Date) returns (r: Result<Json>)
      modifies this
      ensures Fetched(r, sent) == InsightsSpec(server, old(sent), retries, spaceId, PostSnapshotsQuery(profileIds, since, until))
    {
      r := Insights(spaceId, PostSnapshotsQuery(profileIds, since, until));
    }

    method FetchFollowerDemographics(spaceId: string, profileId: Json, snapshot: Date) returns (r: Result<Json>)
      modifies this
      ensures Fetched(r, sent) == InsightsSpec(server, old(sent), retries, spaceId, DemographicsQuery(profileId, snapshot))
    {
      r := Insights(spaceId, DemographicsQuery(profileId, snapshot));
    }
  }

  /** Every trailing `/` of the base URL is dropped, and nothing else. */
  lemma BaseUrlStripped(url: string)
    ensures var b := RStripChar(url, '/');
      && (b != [] ==> b[|b| - 1] != '/')
      && url == b + seq(|url| - |b|, _ => '/')
  {
    var b := RStripChar(url, '/');
    assert url[..|b|] == b;
    assert url[|b|..] == seq(|url| - |b|, _ => '/');
    assert url == url[..|b|] + url[|b|..];
  }
}
