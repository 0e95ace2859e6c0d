/** The Python values the pipeline handles: decoded JSON (`None`, `bool`,
    `int`, `str`, `list`, `dict`), the exceptions it raises, and the built-in
    operations it applies to them (truthiness, `in`, `[key]`, `.get`, iteration,
    `str()`, `repr()` and `int()`). */
module PyValues {
  import opened Strings

  datatype Option<+T> = None | Some(value: T) {
    predicate IsFailure() {
      None?
    }

    function PropagateFailure<U>(): Option<U>
      requires None?
    {
      None
    }

    function Extract(): T
      requires Some?
    {
      value
    }

    function GetOr(default: T): T {
      match this
      case Some(v) => v
      case None => default
    }
  }

  /** What an HTTP exchange failed with, as carried in the message of the
      exception that `httpx` raises. */
  datatype HttpFailure = Transport(detail: string) | HttpStatus(code: int)

  /** Why the warehouse refused a call. */
  datatype Fault =
    | Rejected
    | NotFound(table: string)
    | SchemaMismatch
    | DuplicateSourceKey

  /** The exceptions that can leave the core. */
  datatype Error =
    | TypeError
    | AttributeError
    | KeyError
    | ValueError(message: string)
    | JsonDecodeError
    | RuntimeError(message: string)
    | StatusbrewError(cause: HttpFailure)
    | BigQueryError(fault: Fault)

  /** A value or the exception raised while computing it. */
  datatype Result<+T> = Ok(value: T) | Err(error: Error) {
    predicate IsFailure() {
      Err?
    }

    function PropagateFailure<U>(): Result<U>
      requires Err?
    {
      Err(error)
    }

    function Extract(): T
      requires Ok?
    {
      value
    }
  }

  /** Normal completion or the exception raised. */
  datatype Outcome = Pass | Fail(error: Error) {
    predicate IsFailure() {
      Fail?
    }

    function PropagateFailure(): Outcome
      requires Fail?
    {
      this
    }
  }

  datatype Member = Member(key: string, value: Json)

  /** Decoded JSON. A `dict` keeps its insertion order, so objects are ordered
      key/value lists; a key is bound to the value at its first occurrence. */
  datatype Json =
    | JNull
    | JBool(b: bool)
    | JInt(i: int)
    | JStr(text: string)
    | JList(items: seq<Json>)
    | JObj(members: seq<Member>)

  /** Python truthiness: `None`, `False`, `0`, `""`, `[]` and `{}` are false. */
  predicate Truthy(j: Json) {
    match j
    case JNull => false
    case JBool(b) => b
    case JInt(i) => i != 0
    case JStr(s) => s != ""
    case JList(xs) => xs != []
    case JObj(ms) => ms != []
  }

  /** Python's `a or b` on two evaluated operands. */
  function Or(a: Json, b: Json): Json {
    if Truthy(a) then a else b
  }

  function Lookup(ms: seq<Member>, key: string): Option<Json> {
    if ms == [] then None
    else if ms[0].key == key then Some(ms[0].value)
    else Lookup(ms[1..], key)
  }

  /** `d[key] = v`: rebinds an existing key in place, otherwise appends it. */
  function SetItem(ms: seq<Member>, key: string, v: Json): (r: seq<Member>)
    ensures Lookup(r, key) == Some(v)
    ensures forall k :: k != key ==> Lookup(r, k) == Lookup(ms, k)
  {
    if ms == [] then [Member(key, v)]
    else if ms[0].key == key then [Member(key, v)] + ms[1..]
    else [ms[0]] + SetItem(ms[1..], key, v)
  }

  /** `key in container` for a string key. */
  function Contains(container: Json, key: string): Result<bool> {
    match container
    case JObj(ms) => Ok(Lookup(ms, key).Some?)
    case JList(xs) => Ok(JStr(key) in xs)
    case JStr(s) => Ok(IsSubstring(key, s))
    case _ => Err(TypeError)
  }

  /** `container[key]` for a string key: only a dict can be indexed by a string. */
  function Index(container: Json, key: string): Result<Json> {
    match container
    case JObj(ms) => (match Lookup(ms, key) case Some(v) => Ok(v) case None => Err(KeyError))
    case _ => Err(TypeError)
  }

  /** `container.get(key, default)`: only a dict has `.get`. */
  function DictGet(container: Json, key: string, default: Json): Result<Json> {
    match container
    case JObj(ms) => Ok(Lookup(ms, key).GetOr(default))
    case _ => Err(AttributeError)
  }

  /** `for x in container`: a list yields its items, a dict its keys, a string
      its characters; anything else is not iterable. */
  function Iterate(container: Json): Result<seq<Json>> {
    match container
    case JList(xs) => Ok(xs)
    case JObj(ms) => Ok(seq(|ms|, k requires 0 <= k < |ms| => JStr(ms[k].key)))
    case JStr(s) => Ok(seq(|s|, k requires 0 <= k < |s| => JStr([s[k]])))
    case _ => Err(TypeError)
  }

  function HexDigit(d: nat): char
    requires d < 16
  {
    "0123456789abcdef"[d]
  }

  /** One character inside a quoted `repr` of a string. */
  function EscapeChar(c: char, quote: char): string {
    if c == '\\' then "\\\\"
    else if c == quote then ['\\', quote]
    else if c == '\n' then "\\n"
    else if c == '\r' then "\\r"
    else if c == '\t' then "\\t"
    else if c < ' ' || c == '\U{7f}' then
      "\\x" + [HexDigit(c as int / 16), HexDigit(c as int % 16)]
    else [c]
  }

  function EscapeAll(s: string, quote: char): string {
    if s == [] then "" else EscapeChar(s[0], quote) + EscapeAll(s[1..], quote)
  }

  /** `repr(s)`: single quotes unless the text holds a single quote and no double one. */
  function ReprStr(s: string): string {
    var quote := if '\'' in s && '"' !in s then '"' else '\'';
    [quote] + EscapeAll(s, quote) + [quote]
  }

  /** `repr(j)`, which is also what `str()` prints for a list or a dict. */
  function Repr(j: Json): string
    decreases j
  {
    match j
    case JNull => "None"
    case JBool(b) => if b then "True" else "False"
    case JInt(i) => DecimalString(i)
    case JStr(s) => ReprStr(s)
    case JList(xs) =>
      "[" + Join(seq(|xs|, k requires 0 <= k < |xs| => Repr(xs[k])), ", ") + "]"
    case JObj(ms) =>
      "{" + Join(seq(|ms|, k requires 0 <= k < |ms| => ReprStr(ms[k].key) + ": " + Repr(ms[k].value)), ", ") + "}"
  }

  /** `str(j)`. */
  function Str(j: Json): string {
    if j.JStr? then j.text else Repr(j)
  }

  /** Digits with single underscores between them, as `int()` accepts: a digit,
      then, unless it is the last character, the same again, after at most one `_`. */
  predicate ValidDigits(s: string)
    decreases |s|
  {
    && s != []
    && IsDigit(s[0])
    && (|s| == 1 || (if s[1] == '_' then ValidDigits(s[2..]) else ValidDigits(s[1..])))
  }

  /** A valid run holds only digits and underscores. */
  lemma {:induction false} ValidDigitsChars(s: string)
    requires ValidDigits(s)
    ensures forall k :: 0 <= k < |s| ==> IsDigit(s[k]) || s[k] == '_'
    decreases |s|
  {
    if |s| > 1 {
      var rest := if s[1] == '_' then s[2..] else s[1..];
      ValidDigitsChars(rest);
      assert forall k :: |s| - |rest| <= k < |s| ==> s[k] == rest[k - (|s| - |rest|)];
    }
  }

  /** The number the digits of `s` spell, underscores skipped. */
  function DigitsValue(s: string): nat {
    if s == [] then 0
    else
      var c := s[|s| - 1];
      if c == '_' then DigitsValue(s[..|s| - 1])
      else DigitsValue(s[..|s| - 1]) * 10 + (if IsDigit(c) then c as int - '0' as int else 0)
  }

  /** `int(s)` on a string: surrounding white space is ignored, then an optional
      sign and base-10 digits; anything else is not a number. */
  function ParseInt(s: string): Option<int> {
    var t := Strip(s);
    if t == [] then None
    else
      var body := if t[0] == '-' || t[0] == '+' then t[1..] else t;
      if ValidDigits(body) then
        Some(if t[0] == '-' then -(DigitsValue(body) as int) else DigitsValue(body))
      else None
  }

  /** A character other than a digit, `_` or a sign left after stripping makes
      the string no number. */
  lemma ParseIntRejects(s: string, c: char)
    requires c in Strip(s) && !IsDigit(c) && c != '_' && c != '-' && c != '+'
    ensures ParseInt(s) == None
  {
    var t := Strip(s);
    var j :| 0 <= j < |t| && t[j] == c;
    var body := if t[0] == '-' || t[0] == '+' then t[1..] else t;
    var i := if t[0] == '-' || t[0] == '+' then j - 1 else j;
    assert 0 <= i < |body| && body[i] == c;
    if ValidDigits(body) {
      ValidDigitsChars(body);
    }
  }

  /** `int(j)`: a bool counts as 0 or 1, a string is parsed, `None`, lists and
      dicts raise `TypeError`, a malformed string raises `ValueError`. */
  function IntOf(j: Json): (r: Result<int>)
    ensures r.Ok? <==> j.JInt? || j.JBool? || (j.JStr? && ParseInt(j.text).Some?)
    ensures r.Err? ==> (j.JStr? <==> r.error.ValueError?)
  {
    match j
    case JInt(i) => Ok(i)
    case JBool(b) => Ok(if b then 1 else 0)
    case JStr(s) =>
      (match ParseInt(s)
       case Some(n) => Ok(n)
       case None => Err(ValueError("invalid literal for int() with base 10: " + ReprStr(s))))
    case _ => Err(TypeError)
  }

  lemma {:induction false} NatStringValue(n: nat)
    ensures DigitsValue(NatString(n)) == n
  {
    if n >= 10 {
      var front := NatString(n / 10);
      assert (front + [DigitChar(n % 10)])[..|front|] == front;
      NatStringValue(n / 10);
    }
  }

  lemma {:induction false} DigitStringValid(s: string)
    requires s != [] && forall k :: 0 <= k < |s| ==> IsDigit(s[k])
    ensures ValidDigits(s)
    decreases |s|
  {
    if |s| > 1 {
      DigitStringValid(s[1..]);
    }
  }

  /** `int()` reads a run of digits as its value. */
  lemma ParseDigits(digits: string)
    requires ValidDigits(digits)
    ensures ParseInt(digits) == Some(DigitsValue(digits) as int)
  {
    ValidDigitsChars(digits);
    assert !IsSpace(digits[|digits| - 1]);
    StripUnpadded(digits);
  }

  /** `int()` reads a minus sign and a run of digits as the negated value. */
  lemma ParseNegatedDigits(t: string)
    requires |t| > 1 && t[0] == '-' && ValidDigits(t[1..])
    ensures ParseInt(t) == Some(-(DigitsValue(t[1..]) as int))
  {
    ValidDigitsChars(t[1..]);
    assert t[|t| - 1] == t[1..][|t| - 2];
    StripUnpadded(t);
  }

  /** `int(str(n)) == n`: parsing what Python prints for an int gives it back. */
  lemma ParseDecimalString(n: int)
    ensures ParseInt(DecimalString(n)) == Some(n)
  {
    var m: nat := if n < 0 then -n else n;
    var digits := NatString(m);
    DigitStringValid(digits);
    NatStringValue(m);
    if n < 0 {
      assert DecimalString(n)[1..] == digits;
      ParseNegatedDigits(DecimalString(n));
    } else {
      ParseDigits(digits);
    }
  }
}
