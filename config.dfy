/** Runtime settings (src/statusbrew_pipeline/config.py): the `space_ids`
    validator and the access-token check. Loading from the environment and
    `.env` files is not modelled; a `Settings` value is what that loading
    produced. */
module Config {
  import opened Strings
  import opened PyValues

  /** The settings the jobs and the client read. */
  datatype Settings = Settings(
    gcpProject: string,
    bigqueryDataset: string,
    tableProfileDaily: string,
    tablePostSnapshots: string,
    tableDemographics: string,
    statusbrewBaseUrl: string,
    statusbrewAccessToken: Option<string>,
    spaceIds: seq<string>,
    recentPostLookbackDays: int,
    httpTimeoutSeconds: int,
    httpRetries: int)

  /** The settings with every field that has a default left at it. */
  function DefaultSettings(gcpProject: string, spaceIds: seq<string>): Settings {
    Settings(gcpProject, "statusbrew_ig", "sb_ig_profile_daily_metrics", "sb_ig_post_daily_snapshots",
             "sb_ig_follower_demographics", "https://api.statusbrew.com", None, spaceIds, 10, 60, 3)
  }

  /** What `SPACE_IDS` arrives as before validation: a list, or one string. */
  datatype SpaceIdsInput = Listed(ids: seq<string>) | Text(text: string)

  /** `[v.strip() for v in pieces if v.strip()]`. */
  function KeepStripped(pieces: seq<string>): (r: seq<string>)
    ensures |r| <= |pieces|
    ensures forall i :: 0 <= i < |r| ==> r[i] != "" && Unpadded(r[i])
  {
    if pieces == [] then []
    else
      var head := Strip(pieces[0]);
      (if head != "" then [head] else []) + KeepStripped(pieces[1..])
  }

  /** `Settings.parse_space_ids`: a list passes through unchanged; a string is
      split on commas, each piece stripped, and empty pieces dropped, in order. */
  function ParseSpaceIds(v: SpaceIdsInput): (r: seq<string>)
    ensures v.Listed? ==> r == v.ids
    ensures v.Text? ==> |r| <= Count(v.text, ',') + 1
    ensures v.Text? ==> forall i :: 0 <= i < |r| ==> r[i] != "" && Unpadded(r[i])
  {
    match v
    case Listed(ids) => ids
    case Text(text) => KeepStripped(Split(text, ','))
  }

  /** Pieces that are already clean are all kept, unchanged. */
  lemma {:induction false} KeepStrippedClean(pieces: seq<string>)
    requires forall i :: 0 <= i < |pieces| ==> pieces[i] != "" && Unpadded(pieces[i])
    ensures KeepStripped(pieces) == pieces
  {
    if pieces != [] {
      StripUnpadded(pieces[0]);
      KeepStrippedClean(pieces[1..]);
    }
  }

  /** Ids that are non-empty, unpadded and free of commas survive being
      written as one comma-separated string. */
  lemma ParseSpaceIdsJoined(ids: seq<string>)
    requires ids != []
    requires forall i :: 0 <= i < |ids| ==> ids[i] != "" && Unpadded(ids[i]) && ',' !in ids[i]
    ensures ParseSpaceIds(Text(Join(ids, ","))) == ids
  {
    SplitJoin(ids, ',');
    KeepStrippedClean(ids);
  }

  /** The comprehension works piece by piece: its result on two runs of
      pieces is its result on the first followed by its result on the second. */
  lemma {:induction false} KeepStrippedAppend(a: seq<string>, b: seq<string>)
    ensures KeepStripped(a + b) == KeepStripped(a) + KeepStripped(b)
  {
    if a != [] {
      var head := KeepStripped([a[0]]);
      assert a + b == [a[0]] + (a[1..] + b);
      KeepStrippedHead(a[0], a[1..] + b);
      assert a == [a[0]] + a[1..];
      KeepStrippedHead(a[0], a[1..]);
      KeepStrippedAppend(a[1..], b);
      ConcatAssoc(head, KeepStripped(a[1..]), KeepStripped(b));
    } else {
      assert a + b == b;
    }
  }

  lemma KeepStrippedHead(p: string, rest: seq<string>)
    ensures KeepStripped([p] + rest) == KeepStripped([p]) + KeepStripped(rest)
  {
    assert ([p] + rest)[0] == p && ([p] + rest)[1..] == rest;
    assert [p][1..] == [];
    if Strip(p) != "" {
      assert KeepStripped([p]) == [Strip(p)];
    } else {
      assert KeepStripped([p]) == [];
    }
  }

  /** A piece made only of white space is dropped. */
  lemma KeepStrippedBlank(a: seq<string>, p: string, b: seq<string>)
    requires forall k :: 0 <= k < |p| ==> IsSpace(p[k])
    ensures KeepStripped(a + [p] + b) == KeepStripped(a) + KeepStripped(b)
  {
    assert KeepStripped([p]) == [] by {
      KeepStrippedCons(p, []);
    }
    KeepStrippedAppend(a + [p], b);
    KeepStrippedAppend(a, [p]);
    assert KeepStripped(a) + [] == KeepStripped(a);
  }

  /** Pieces that strip to non-empty ids give exactly those ids, in order. */
  lemma {:induction false} KeepStrippedPadded(pieces: seq<string>, ids: seq<string>)
    requires |pieces| == |ids|
    requires forall i :: 0 <= i < |ids| ==> ids[i] != "" && Strip(pieces[i]) == ids[i]
    ensures KeepStripped(pieces) == ids
  {
    if pieces != [] {
      KeepStrippedPadded(pieces[1..], ids[1..]);
      assert ids == [ids[0]] + ids[1..];
    }
  }

  /** Comma-free ids written with white space around them, joined by commas,
      parse back to the ids. */
  lemma ParseSpaceIdsPadded(pieces: seq<string>, ids: seq<string>)
    requires pieces != [] && |pieces| == |ids|
    requires forall i :: 0 <= i < |pieces| ==> ',' !in pieces[i]
    requires forall i :: 0 <= i < |ids| ==> ids[i] != "" && Strip(pieces[i]) == ids[i]
    ensures ParseSpaceIds(Text(Join(pieces, ","))) == ids
  {
    SplitJoin(pieces, ',');
    KeepStrippedPadded(pieces, ids);
  }

  /** The pieces of the documented example's shape `"a,b , c"`. */
  lemma ExampleSplit(a: char, b: char, c: char)
    requires a != ',' && b != ',' && c != ','
    ensures Split([a, ',', b, ' ', ',', ' ', c], ',') == [[a], [b, ' '], [' ', c]]
  {
    var pieces := [[a], [b, ' '], [' ', c]];
    assert pieces[1..][1..] == [[' ', c]];
    assert Join(pieces[1..], ",") == [b, ' ', ',', ' ', c];
    assert Join(pieces, ",") == [a, ',', b, ' ', ',', ' ', c];
    SplitJoin(pieces, ',');
  }

  lemma StripTrailingSpace(b: char)
    requires !IsSpace(b)
    ensures Strip([b, ' ']) == [b]
  {
    assert TrimStart([b, ' ']) == [b, ' '];
    assert [b, ' '][..1] == [b];
    assert TrimEnd([b]) == [b];
  }

  lemma StripLeadingSpace(c: char)
    requires !IsSpace(c)
    ensures Strip([' ', c]) == [c]
  {
    assert [' ', c][1..] == [c];
    assert TrimStart([c]) == [c];
  }

  /** One step of the comprehension. */
  lemma KeepStrippedCons(p: string, rest: seq<string>)
    ensures KeepStripped([p] + rest) == (if Strip(p) != "" then [Strip(p)] else []) + KeepStripped(rest)
  {
    assert ([p] + rest)[1..] == rest;
  }

  /** The documented example `"a,b , c"` gives `["a", "b", "c"]`, for any three
      one-character ids in place of `a`, `b` and `c`. */
  lemma ParseSpaceIdsExample(a: char, b: char, c: char)
    requires a != ',' && b != ',' && c != ','
    requires !IsSpace(a) && !IsSpace(b) && !IsSpace(c)
    ensures ParseSpaceIds(Text([a, ',', b, ' ', ',', ' ', c])) == [[a], [b], [c]]
  {
    ExampleSplit(a, b, c);
    StripTrailingSpace(b);
    StripLeadingSpace(c);
    assert Strip([a]) == [a];
    KeepStrippedCons([' ', c], []);
    KeepStrippedCons([b, ' '], [[' ', c]]);
    KeepStrippedCons([a], [[b, ' '], [' ', c]]);
    assert [[a], [b, ' '], [' ', c]] == [[a]] + [[b, ' '], [' ', c]];
    assert [[b, ' '], [' ', c]] == [[b, ' ']] + [[' ', c]];
    assert [[' ', c]] == [[' ', c]] + [];
  }

  /** `Settings.require_token`: the token when it is set and non-empty,
      otherwise a `RuntimeError` naming the variable to set. */
  function RequireToken(s: Settings): (r: Result<string>)
    ensures r.Ok? <==> s.statusbrewAccessToken.Some? && s.statusbrewAccessToken.value != ""
    ensures r.Ok? ==> r.value == s.statusbrewAccessToken.value
    ensures r.Err? ==> r.error.RuntimeError?
  {
    match s.statusbrewAccessToken
    case Some(token) =>
      if token != "" then Ok(token) else Err(TokenMissing())
    case None => Err(TokenMissing())
  }

  function TokenMissing(): Error {
    RuntimeError(TokenMissingMessage)
  }

  const TokenMissingMessage: string :=
    "Statusbrew access token is not set. Provide STATUSBREW_ACCESS_TOKEN or configure Secret Manager."
}
