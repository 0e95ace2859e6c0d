/** The tolerant field extraction of the job runner (src/statusbrew_pipeline/jobs.py):
    `_get`, `_to_int`, `_safe_str` and `_parse_datetime`. */
module Normalize {
  import opened Strings
  import opened PyValues
  import opened Times

  /** `loc in record and key in record[loc]`, with Python's short-circuit:
      the nested container is not checked to be a dict. */
  function Within(record: Json, loc: string, key: string): Result<bool> {
    var has :- Contains(record, loc);
    if !has then Ok(false)
    else
      var inner :- Index(record, loc);
      Contains(inner, key)
  }

  /** `loc in record and isinstance(record[loc], dict) and key in record[loc]`. */
  function WithinDict(record: Json, loc: string, key: string): Result<bool> {
    var has :- Contains(record, loc);
    if !has then Ok(false)
    else
      var inner :- Index(record, loc);
      if !inner.JObj? then Ok(false) else Contains(inner, key)
  }

  /** `record[loc][key]`. */
  function Nested(record: Json, loc: string, key: string): Result<Json> {
    var inner :- Index(record, loc);
    Index(inner, key)
  }

  /** `_get(record, key)`: the record itself, then `metrics`, `dimensions`,
      `post` and `profile`; `None` when no location holds the key. */
  function Get(record: Json, key: string): Result<Json> {
    var top :- Contains(record, key);
    if top then Index(record, key)
    else
      var inMetrics :- Within(record, "metrics", key);
      if inMetrics then Nested(record, "metrics", key)
      else
        var inDimensions :- Within(record, "dimensions", key);
        if inDimensions then Nested(record, "dimensions", key)
        else
          var inPost :- WithinDict(record, "post", key);
          if inPost then Nested(record, "post", key)
          else
            var inProfile :- WithinDict(record, "profile", key);
            if inProfile then Nested(record, "profile", key)
            else Ok(JNull)
  }

  /** `_get(record, a) or _get(record, b)`: the second lookup runs only when the
      first value is falsy. */
  function GetEither(record: Json, a: string, b: string): Result<Json> {
    var first :- Get(record, a);
    if Truthy(first) then Ok(first) else Get(record, b)
  }

  // ---------------------------------------------------------------------------
  // Reference definition of the lookup order

  /** The dicts `_get` consults, in order, for a dict record. */
  function Locations(ms: seq<Member>): seq<seq<Member>> {
    [ms] + (Sub(ms, "metrics") + (Sub(ms, "dimensions") + (Sub(ms, "post") + Sub(ms, "profile"))))
  }

  /** The dict at `loc`, if the record binds `loc` to a dict. */
  function Sub(ms: seq<Member>, loc: string): seq<seq<Member>> {
    match Lookup(ms, loc)
    case Some(JObj(inner)) => [inner]
    case _ => []
  }

  /** The value bound to `key` in the first dict that binds it, else `None`. */
  function FirstHolding(dicts: seq<seq<Member>>, key: string): Json {
    if dicts == [] then JNull
    else match Lookup(dicts[0], key)
      case Some(v) => v
      case None => FirstHolding(dicts[1..], key)
  }

  /** `metrics` and `dimensions`, where present, are dicts: the shape on which
      `_get` cannot raise. */
  predicate Regular(ms: seq<Member>) {
    && (Lookup(ms, "metrics").Some? ==> Lookup(ms, "metrics").value.JObj?)
    && (Lookup(ms, "dimensions").Some? ==> Lookup(ms, "dimensions").value.JObj?)
  }

  /** On a regular dict record `_get` returns the value at the first location
      holding the key, in the order record, metrics, dimensions, post, profile;
      a present `None` wins; a key held nowhere gives `None`. */
  lemma GetFirstHolding(ms: seq<Member>, key: string)
    requires Regular(ms)
    ensures Get(JObj(ms), key) == Ok(FirstHolding(Locations(ms), key))
  {
    var pr := Sub(ms, "post") + Sub(ms, "profile");
    var dpr := Sub(ms, "dimensions") + pr;
    var mdpr := Sub(ms, "metrics") + dpr;
    FirstHoldingAppend([ms], mdpr, key);
    FirstHoldingAppend(Sub(ms, "metrics"), dpr, key);
    FirstHoldingAppend(Sub(ms, "dimensions"), pr, key);
    FirstHoldingAppend(Sub(ms, "post"), Sub(ms, "profile"), key);
    FirstHoldingAppend(Sub(ms, "profile"), [], key);
    assert Sub(ms, "profile") + [] == Sub(ms, "profile");
    WithinAsSub(ms, "metrics", key, false);
    WithinAsSub(ms, "dimensions", key, false);
    WithinAsSub(ms, "post", key, true);
    WithinAsSub(ms, "profile", key, true);
  }

  /** One nested location of `_get`, read through `Sub`. */
  lemma WithinAsSub(ms: seq<Member>, loc: string, key: string, guarded: bool)
    requires !guarded ==> Lookup(ms, loc).Some? ==> Lookup(ms, loc).value.JObj?
    ensures var found := Sub(ms, loc) != [] && Lookup(Sub(ms, loc)[0], key).Some?;
      && (if guarded then WithinDict(JObj(ms), loc, key) else Within(JObj(ms), loc, key)) == Ok(found)
      && (found ==> Nested(JObj(ms), loc, key) == Ok(Lookup(Sub(ms, loc)[0], key).value))
  {
  }

  /** Looking through a location list of at most one dict, then the rest. */
  lemma FirstHoldingAppend(a: seq<seq<Member>>, b: seq<seq<Member>>, key: string)
    requires |a| <= 1
    ensures FirstHolding(a + b, key)
         == if a != [] && Lookup(a[0], key).Some? then Lookup(a[0], key).value else FirstHolding(b, key)
  {
    if a != [] {
      assert (a + b)[0] == a[0];
      assert (a + b)[1..] == b;
    } else {
      assert a + b == b;
    }
  }

  /** `metrics` is not type-guarded: when it is `None` and the key is not at the
      top level, `key in record["metrics"]` raises `TypeError`. */
  lemma GetUnguardedMetrics(ms: seq<Member>, key: string)
    requires Lookup(ms, key).None? && Lookup(ms, "metrics") == Some(JNull)
    ensures Get(JObj(ms), key) == Err(TypeError)
  {
  }

  /** A `metrics` list that contains the key as an element makes `_get` index a
      list by a string, which raises `TypeError`. */
  lemma GetMetricsListHoldingKey(ms: seq<Member>, key: string, xs: seq<Json>)
    requires Lookup(ms, key).None? && Lookup(ms, "metrics") == Some(JList(xs)) && JStr(key) in xs
    ensures Get(JObj(ms), key) == Err(TypeError)
  {
  }

  /** `post` and `profile` are type-guarded: a non-dict there is skipped. */
  lemma GetSkipsNonDictPost(ms: seq<Member>, key: string)
    requires Regular(ms)
    requires Lookup(ms, "post").Some? && !Lookup(ms, "post").value.JObj?
    ensures Get(JObj(ms), key)
      == Ok(FirstHolding([ms] + (Sub(ms, "metrics") + (Sub(ms, "dimensions") + Sub(ms, "profile"))), key))
  {
    GetFirstHolding(ms, key);
    assert Sub(ms, "post") == [];
    assert Sub(ms, "post") + Sub(ms, "profile") == Sub(ms, "profile");
  }

  /** A record's top-level binding wins over every nested one, even when it is `None`. */
  lemma GetTopLevelWins(ms: seq<Member>, key: string)
    requires Lookup(ms, key).Some?
    ensures Get(JObj(ms), key) == Ok(Lookup(ms, key).value)
  {
  }

  // ---------------------------------------------------------------------------
  // Coercions

  /** `_to_int(value)`: `int(value)`, or `None` when that raises `TypeError` or
      `ValueError`; it never raises. */
  function ToInt(v: Json): (r: Option<int>)
    ensures r.Some? <==> v.JInt? || v.JBool? || (v.JStr? && ParseInt(v.text).Some?)
    ensures v.JInt? ==> r == Some(v.i)
    ensures v.JNull? || v.JList? || v.JObj? ==> r == None
    ensures v == JStr("") ==> r == None
  {
    match IntOf(v)
    case Ok(n) => Some(n)
    case Err(_) => None
  }

  /** `_to_int(str(n)) == n` for every int `n`. */
  lemma ToIntDecimal(n: int)
    ensures ToInt(JStr(DecimalString(n))) == Some(n)
  {
    ParseDecimalString(n);
  }

  /** A string holding a character that is neither a digit, white space, `_`
      nor a sign gives `None`. */
  lemma ToIntRejects(s: string)
    requires exists k :: 0 <= k < |s| && !IsDigit(s[k]) && !IsSpace(s[k]) && s[k] != '_' && s[k] != '-' && s[k] != '+'
    ensures ToInt(JStr(s)) == None
  {
    var k :| 0 <= k < |s| && !IsDigit(s[k]) && !IsSpace(s[k]) && s[k] != '_' && s[k] != '-' && s[k] != '+';
    StripKeeps(s, k);
    ParseIntRejects(s, s[k]);
  }

  /** A character that is not white space survives `strip()`. */
  lemma StripKeeps(s: string, k: int)
    requires 0 <= k < |s| && !IsSpace(s[k])
    ensures s[k] in Strip(s)
  {
  }

  /** `_safe_str(value)`: `""` for `None`, otherwise `str(value)`. */
  function SafeStr(v: Json): (r: string)
    ensures v.JNull? ==> r == ""
    ensures v.JStr? ==> r == v.text
    ensures v.JInt? ==> r == DecimalString(v.i)
  {
    if v.JNull? then "" else Str(v)
  }

  /** `_parse_datetime(value)` on a decoded JSON value: `None` stays `None`, a
      string goes to the date parser (whose failure is `None`), and anything
      else makes the parser raise, which is caught as `None`. */
  function ParseDatetime(v: Json, parse: string -> Option<DateTime>): (r: Option<DateTime>)
    ensures !v.JStr? ==> r == None
    ensures v.JStr? ==> r == parse(v.text)
  {
    match v
    case JStr(s) => parse(s)
    case _ => None
  }
}
