/**
 * The configuration service: validation of the eight-field configuration,
 * the default configuration, the conversion to and from the JSON object the
 * service stores, and the decisions `load_config` and `save_config` take.
 *
 * The JSON text itself is not modelled: a configuration file is either
 * missing, not decodable, or decodes to a `Json` value, and saving produces
 * the JSON object that would be written.
 */
module Config {
  import opened Common
  import opened Paths
  import opened Models
  import Numbers

  /** A decoded JSON value as Python's `json` module returns it.  A finite
      float is held as its exact value.  `json.load` also reads `Infinity`,
      `-Infinity` and `NaN`, and a literal beyond the double range, such as
      `1e400`, as an infinity; those floats are values of their own. */
  datatype Json =
    | JNull
    | JBool(b: bool)
    | JInt(i: int)
    | JFloat(f: real)
    | JInfinity(negative: bool)
    | JNaN
    | JString(s: string)
    | JList(items: seq<Json>)
    | JObject(fields: map<string, Json>)

  /** `ValidationResult(is_valid, errors)` */
  datatype ValidationResult = ValidationResult(isValid: bool, errors: seq<string>)

  // ---------------------------------------------------------------------------
  // Validation

  /** The problems `validate_config` reports.  `download_directory must be a
      Path object` and `minimum_score must be a number or None` cannot arise
      for a configuration of this model's types and are not listed. */
  datatype Issue =
    | LettersEmpty | LettersNotSingle
    | DirectoryNotAbsolute
    | DownloadsNotPositive | DownloadsTooMany
    | DelayNegative | DelayTooLong
    | LogLevelUnknown
    | ScoreOutOfRange
    | ScrapesNotPositive | ScrapesTooMany

  /** The position of the field an issue is about, in the order the fields
      are checked. */
  function Field(i: Issue): nat
  {
    match i
    case LettersEmpty | LettersNotSingle => 0
    case DirectoryNotAbsolute => 1
    case DownloadsNotPositive | DownloadsTooMany => 2
    case DelayNegative | DelayTooLong => 3
    case LogLevelUnknown => 4
    case ScoreOutOfRange => 5
    case ScrapesNotPositive | ScrapesTooMany => 6
  }

  /** The text reported for an issue.  For the log level the source joins a
      Python set, whose order is not fixed; this model lists the names in
      their order of severity. */
  function Message(i: Issue): string
  {
    match i
    case LettersEmpty => "target_letters cannot be empty"
    case LettersNotSingle => "target_letters must contain single alphabetic characters"
    case DirectoryNotAbsolute => "download_directory must be an absolute path"
    case DownloadsNotPositive => "concurrent_downloads must be a positive integer"
    case DownloadsTooMany => "concurrent_downloads should not exceed 10"
    case DelayNegative => "request_delay must be a non-negative number"
    case DelayTooLong => "request_delay should not exceed 60 seconds"
    case LogLevelUnknown => "log_level must be one of: DEBUG, INFO, WARNING, ERROR, CRITICAL"
    case ScoreOutOfRange => "minimum_score must be between 0 and 100"
    case ScrapesNotPositive => "concurrent_scrapes must be a positive integer"
    case ScrapesTooMany => "concurrent_scrapes should not exceed 10"
  }

  const LogLevels: set<string> := {"DEBUG", "INFO", "WARNING", "ERROR", "CRITICAL"}

  /** One target letter: a single alphabetic character. */
  predicate IsLetter(s: string)
  {
    |s| == 1 && IsAlpha(s[0])
  }

  function LettersCheck(letters: seq<string>): (r: Option<Issue>)
    ensures r.Some? ==> Field(r.value) == 0
  {
    if letters == [] then Some(LettersEmpty)
    else if !(forall k :: 0 <= k < |letters| ==> IsLetter(letters[k])) then Some(LettersNotSingle)
    else None
  }

  function DirectoryCheck(dir: Path): (r: Option<Issue>)
    ensures r.Some? ==> Field(r.value) == 1
  {
    if !dir.absolute then Some(DirectoryNotAbsolute) else None
  }

  function DownloadsCheck(n: int): (r: Option<Issue>)
    ensures r.Some? ==> Field(r.value) == 2
  {
    if n < 1 then Some(DownloadsNotPositive) else if n > 10 then Some(DownloadsTooMany) else None
  }

  function DelayCheck(d: real): (r: Option<Issue>)
    ensures r.Some? ==> Field(r.value) == 3
  {
    if d < 0.0 then Some(DelayNegative) else if d > 60.0 then Some(DelayTooLong) else None
  }

  function LogLevelCheck(level: string): (r: Option<Issue>)
    ensures r.Some? ==> Field(r.value) == 4
  {
    if level !in LogLevels then Some(LogLevelUnknown) else None
  }

  function ScoreCheck(score: Option<real>): (r: Option<Issue>)
    ensures r.Some? ==> Field(r.value) == 5
  {
    if score.Some? && (score.value < 0.0 || score.value > 100.0) then Some(ScoreOutOfRange) else None
  }

  function ScrapesCheck(n: int): (r: Option<Issue>)
    ensures r.Some? ==> Field(r.value) == 6
  {
    if n < 1 then Some(ScrapesNotPositive) else if n > 10 then Some(ScrapesTooMany) else None
  }

  /** The issue of a check that failed, as a list of zero or one entries. */
  function Opt(o: Option<Issue>): (r: seq<Issue>)
    ensures o.None? ==> r == []
    ensures o.Some? ==> r == [o.value]
  {
    if o.Some? then [o.value] else []
  }

  /** The issues `validate_config` finds, one check per field, in field order. */
  function Issues(c: AppConfig): (r: seq<Issue>)
    ensures |r| <= 7
  {
    Opt(LettersCheck(c.targetLetters)) + Opt(DirectoryCheck(c.downloadDirectory))
    + Opt(DownloadsCheck(c.concurrentDownloads)) + Opt(DelayCheck(c.requestDelay))
    + Opt(LogLevelCheck(c.logLevel)) + Opt(ScoreCheck(c.minimumScore))
    + Opt(ScrapesCheck(c.concurrentScrapes))
  }

  /** The error texts `validate_config` reports. */
  function ConfigErrors(c: AppConfig): (r: seq<string>)
    ensures |r| == |Issues(c)|
    ensures forall k :: 0 <= k < |r| ==> r[k] == Message(Issues(c)[k])
  {
    var issues := Issues(c);
    seq(|issues|, k requires 0 <= k < |issues| => Message(issues[k]))
  }

  /** The rules a configuration must meet, stated directly. */
  predicate ConfigOk(c: AppConfig)
  {
    && c.targetLetters != []
    && (forall k :: 0 <= k < |c.targetLetters| ==> IsLetter(c.targetLetters[k]))
    && c.downloadDirectory.absolute
    && 1 <= c.concurrentDownloads <= 10
    && 0.0 <= c.requestDelay <= 60.0
    && c.logLevel in LogLevels
    && (c.minimumScore.Some? ==> 0.0 <= c.minimumScore.value <= 100.0)
    && 1 <= c.concurrentScrapes <= 10
  }

  /** A configuration has no validation error exactly when it meets every rule. */
  lemma ValidIffRulesHold(c: AppConfig)
    ensures ConfigErrors(c) == [] <==> ConfigOk(c)
  {
  }

  /** `validate_config`: the errors of the field checks, in field order, and
      valid exactly when there are none, that is when every rule holds. */
  function ValidateConfig(c: AppConfig): (r: ValidationResult)
    ensures r.errors == ConfigErrors(c)
    ensures r.isValid <==> r.errors == []
    ensures r.isValid <==> ConfigOk(c)
  {
    ValidIffRulesHold(c);
    var errors := ConfigErrors(c);
    ValidationResult(errors == [], errors)
  }

  /** The fields of a list of issues are below `bound` and strictly increase,
      stated from the last issue backwards. */
  predicate Increasing(issues: seq<Issue>, bound: int)
    decreases |issues|
  {
    issues == []
    || (var last := Field(issues[|issues| - 1]);
        last < bound && Increasing(issues[..|issues| - 1], last))
  }

  /** The fields of the reported issues strictly increase: each field
      contributes at most one error, and errors appear in field order. */
  lemma OneErrorPerField(c: AppConfig)
    ensures |ConfigErrors(c)| <= 7
    ensures forall i, j :: 0 <= i < j < |Issues(c)| ==> Field(Issues(c)[i]) < Field(Issues(c)[j])
  {
    IssuesIncreasing(c);
    IncreasingSorted(Issues(c), 7);
  }

  lemma IssuesIncreasing(c: AppConfig)
    ensures Increasing(Issues(c), 7)
  {
    SevenIncreasing(LettersCheck(c.targetLetters), DirectoryCheck(c.downloadDirectory),
      DownloadsCheck(c.concurrentDownloads), DelayCheck(c.requestDelay),
      LogLevelCheck(c.logLevel), ScoreCheck(c.minimumScore), ScrapesCheck(c.concurrentScrapes));
  }

  /** Seven checks, the k-th reporting only issues of field k, report issues
      in increasing field order. */
  lemma SevenIncreasing(o0: Option<Issue>, o1: Option<Issue>, o2: Option<Issue>, o3: Option<Issue>,
                        o4: Option<Issue>, o5: Option<Issue>, o6: Option<Issue>)
    requires o0.Some? ==> Field(o0.value) == 0
    requires o1.Some? ==> Field(o1.value) == 1
    requires o2.Some? ==> Field(o2.value) == 2
    requires o3.Some? ==> Field(o3.value) == 3
    requires o4.Some? ==> Field(o4.value) == 4
    requires o5.Some? ==> Field(o5.value) == 5
    requires o6.Some? ==> Field(o6.value) == 6
    ensures Increasing(Opt(o0) + Opt(o1) + Opt(o2) + Opt(o3) + Opt(o4) + Opt(o5) + Opt(o6), 7)
  {
    var a := Opt(o0);
    assert Increasing(a, 1) by {
      if a != [] {
        assert a[..0] == [];
      }
    }
    ExtendTwo(a, o1, o2, 1);
    a := a + Opt(o1) + Opt(o2);
    ExtendTwo(a, o3, o4, 3);
    a := a + Opt(o3) + Opt(o4);
    ExtendTwo(a, o5, o6, 5);
  }

  lemma ExtendTwo(issues: seq<Issue>, o: Option<Issue>, p: Option<Issue>, n: int)
    requires Increasing(issues, n)
    requires o.Some? ==> Field(o.value) == n
    requires p.Some? ==> Field(p.value) == n + 1
    ensures Increasing(issues + Opt(o) + Opt(p), n + 2)
  {
    Extend(issues, Opt(o), n);
    Extend(issues + Opt(o), Opt(p), n + 1);
  }

  /** Appending at most one issue of field `n` to issues of lower fields keeps
      the fields increasing. */
  lemma Extend(issues: seq<Issue>, more: seq<Issue>, n: int)
    requires Increasing(issues, n) && |more| <= 1
    requires forall i :: 0 <= i < |more| ==> Field(more[i]) == n
    ensures Increasing(issues + more, n + 1)
    ensures |issues + more| <= |issues| + 1
  {
    if more == [] {
      assert issues + more == issues;
      Raise(issues, n);
    } else {
      var s := issues + more;
      assert s[..|issues|] == issues;
      assert s[|s| - 1] == more[0];
    }
  }

  lemma Raise(issues: seq<Issue>, n: int)
    requires Increasing(issues, n)
    ensures Increasing(issues, n + 1)
  {
  }

  /** `Increasing` means every pair of issues is in strictly increasing
      field order, below the bound. */
  lemma {:induction false} IncreasingSorted(issues: seq<Issue>, bound: int)
    requires Increasing(issues, bound)
    ensures forall i :: 0 <= i < |issues| ==> Field(issues[i]) < bound
    ensures forall i, j :: 0 <= i < j < |issues| ==> Field(issues[i]) < Field(issues[j])
    decreases |issues|
  {
    if issues != [] {
      var init := issues[..|issues| - 1];
      IncreasingSorted(init, Field(issues[|issues| - 1]));
      assert forall i :: 0 <= i < |init| ==> init[i] == issues[i];
    }
  }

  /** An empty letter list is reported first, with its own message. */
  lemma EmptyLettersRejected(c: AppConfig)
    requires c.targetLetters == []
    ensures ConfigErrors(c)[0] == Message(LettersEmpty)
  {
  }

  /** A letter list with an entry that is not one letter is reported first,
      with its own message. */
  lemma NonLetterRejected(c: AppConfig, k: int)
    requires 0 <= k < |c.targetLetters| && !IsLetter(c.targetLetters[k])
    ensures ConfigErrors(c)[0] == Message(LettersNotSingle)
  {
  }

  // ---------------------------------------------------------------------------
  // Defaults

  /** `_get_default_config()` for the user's home directory `home`. */
  function DefaultConfig(home: Path): (r: AppConfig)
    ensures home.absolute ==> r.downloadDirectory.absolute
    ensures Valid(home) ==> Valid(r.downloadDirectory)
    ensures r.targetLetters != [] && r.minimumScore.None?
  {
    AppConfig(["A"], JoinPath(JoinPath(home, "Downloads"), "games"), 1, 2.0, "INFO", None, 3, true)
  }

  /** The default configuration passes validation whenever the home
      directory is absolute. */
  lemma DefaultIsValid(home: Path)
    requires home.absolute
    ensures ConfigErrors(DefaultConfig(home)) == []
  {
    var c := DefaultConfig(home);
    assert IsLetter(c.targetLetters[0]);
  }

  // ---------------------------------------------------------------------------
  // Conversion to and from the stored JSON object

  const KeyLetters := "target_letters"
  const KeyDirectory := "download_directory"
  const KeyDownloads := "concurrent_downloads"
  const KeyDelay := "request_delay"
  const KeyLogLevel := "log_level"
  const KeyScore := "minimum_score"
  const KeyScrapes := "concurrent_scrapes"
  const KeyAutoQueue := "auto_queue_downloads"

  /** The keys `_dict_to_config` reads with `data[key]`. */
  const RequiredKeys: set<string> := {KeyLetters, KeyDirectory, KeyDownloads, KeyDelay, KeyLogLevel}

  /** `_config_to_dict` */
  function ConfigToDict(c: AppConfig): (d: map<string, Json>)
    ensures RequiredKeys <= d.Keys
  {
    map[
      KeyLetters := JList(seq(|c.targetLetters|, k requires 0 <= k < |c.targetLetters| => JString(c.targetLetters[k]))),
      KeyDirectory := JString(ToString(c.downloadDirectory)),
      KeyDownloads := JInt(c.concurrentDownloads),
      KeyDelay := JFloat(c.requestDelay),
      KeyLogLevel := JString(c.logLevel),
      KeyScore := if c.minimumScore.Some? then JFloat(c.minimumScore.value) else JNull,
      KeyScrapes := JInt(c.concurrentScrapes),
      KeyAutoQueue := JBool(c.autoQueueDownloads)]
  }

  /** `isinstance(v, (int, float))`; a Python `bool` is an `int`, and an
      infinity or NaN is a `float`. */
  predicate IsNumber(v: Json)
  {
    v.JBool? || v.JInt? || v.JFloat? || v.JInfinity? || v.JNaN?
  }

  function TwoTo(n: nat): nat
  {
    if n == 0 then 1 else 2 * TwoTo(n - 1)
  }

  /** `float(i)` raises OverflowError exactly when `i` rounds, to nearest with
      ties to even, past the largest double 2^1024 - 2^971, that is when
      |i| >= 2^1024 - 2^970. */
  predicate FloatOverflows(i: int)
  {
    i >= TwoTo(1024) - TwoTo(970) || -i >= TwoTo(1024) - TwoTo(970)
  }

  /** A value that neither `int()` nor `float()` raises on, and that `float()`
      turns into a finite number when it is one. */
  predicate InRange(v: Json)
  {
    !v.JInfinity? && !v.JNaN? && !(v.JInt? && FloatOverflows(v.i))
  }

  /** The exceptions `_dict_to_config` raises: KeyError for a missing
      required key, and the ValueError and OverflowError of a conversion. */
  datatype DictError = MissingKey(key: string) | ValueError | OverflowError

  /** What `int(v)` raises for a JSON number: OverflowError for an infinity
      and ValueError for NaN. */
  function IntRaises(v: Json): Option<DictError>
  {
    match v
    case JInfinity(_) => Some(OverflowError)
    case JNaN => Some(ValueError)
    case _ => None
  }

  /** What `float(v)` raises for a JSON number: OverflowError for an int past
      the double range. */
  function FloatRaises(v: Json): Option<DictError>
  {
    if v.JInt? && FloatOverflows(v.i) then Some(OverflowError) else None
  }

  /** `int(x)` for a real: truncation toward zero. */
  function Trunc(x: real): (r: int)
    ensures x >= 0.0 ==> r == x.Floor
    ensures x < 0.0 ==> r == -((-x).Floor)
  {
    if x >= 0.0 then x.Floor else -((-x).Floor)
  }

  /** `int(v)` for a JSON number that `int` converts. */
  function IntOf(v: Json): int
    requires IsNumber(v) && IntRaises(v).None?
  {
    match v
    case JBool(b) => if b then 1 else 0
    case JInt(i) => i
    case JFloat(f) => Trunc(f)
  }

  /** `float(v)` for a JSON number that `float` makes finite. */
  function FloatOf(v: Json): real
    requires IsNumber(v) && !v.JInfinity? && !v.JNaN?
  {
    match v
    case JBool(b) => if b then 1.0 else 0.0
    case JInt(i) => i as real
    case JFloat(f) => f
  }

  /** `str(v)` as far as a directory built from it is concerned.  The text of
      a float, a list or an object is represented by a fixed relative text. */
  function PyStr(v: Json): (r: string)
    ensures v.JString? ==> r == v.s
    ensures !v.JString? ==> r != [] && r[0] != '/'
  {
    match v
    case JNull => "None"
    case JBool(b) => if b then "True" else "False"
    case JInt(i) => IntToString(i)
    case JFloat(_) => "<float>"
    case JInfinity(negative) => if negative then "-inf" else "inf"
    case JNaN => "nan"
    case JList(_) => "[...]"
    case JObject(_) => "{...}"
    case JString(s) => s
  }

  /** What reading `minimum_score` raises: the OverflowError of `float()`,
      which the handler at 155 does not catch. */
  function ScoreRaises(data: map<string, Json>): Option<DictError>
  {
    if KeyScore in data then FloatRaises(data[KeyScore]) else None
  }

  /** `minimum_score` is read as an infinity or NaN. */
  predicate ScoreNotFinite(data: map<string, Json>)
  {
    KeyScore in data && (data[KeyScore].JInfinity? || data[KeyScore].JNaN?)
  }

  /** The `minimum_score` field: missing, `null` and "" give no minimum;
      otherwise `float(raw)`, with a failure (a list, an object, text that is
      not a number) also giving no minimum. */
  function ScoreOf(data: map<string, Json>): Option<real>
    requires ScoreRaises(data).None? && !ScoreNotFinite(data)
  {
    if KeyScore !in data then None
    else
      var raw := data[KeyScore];
      match raw
      case JNull => None
      case JString(s) => if s == "" then None else Numbers.ParseFloat(s)
      case JList(_) => None
      case JObject(_) => None
      case JBool(_) => Some(FloatOf(raw))
      case JInt(_) => Some(FloatOf(raw))
      case JFloat(_) => Some(FloatOf(raw))
  }

  /** `data.get("concurrent_scrapes", 3)` */
  function ScrapesRaw(data: map<string, Json>): Json
  {
    if KeyScrapes in data then data[KeyScrapes] else JInt(3)
  }

  /** What `int()` of `concurrent_scrapes` raises, when it is a number. */
  function ScrapesRaises(data: map<string, Json>): Option<DictError>
  {
    if IsNumber(ScrapesRaw(data)) then IntRaises(ScrapesRaw(data)) else None
  }

  /** The target letters of a JSON list; an entry that is not a string fails
      validation exactly like a string that is not one letter, and stands for "". */
  function LettersOf(v: Json): (r: seq<string>)
    ensures !v.JList? ==> r == []
    ensures v.JList? ==> |r| == |v.items|
  {
    if v.JList? then
      seq(|v.items|, k requires 0 <= k < |v.items| => if v.items[k].JString? then v.items[k].s else "")
    else []
  }

  /** Every value of the object is in range. */
  predicate AllInRange(data: map<string, Json>)
  {
    forall k :: k in data ==> InRange(data[k])
  }

  /** What `_dict_to_config` does with an object: the configuration it
      builds; `NotFinite` for a configuration it builds with an infinite or
      NaN `request_delay` or `minimum_score`, which this model's reals cannot
      hold; or the exception it raises. */
  datatype Conversion = Built(config: AppConfig) | NotFinite | Raised(error: DictError)

  /** `_dict_to_config`, raising in the order the code evaluates: the score
      (154), the scrape count (160), then the required keys with the
      conversions of the download count (169) and the delay (170) after
      their keys.  On an object with every value in range it builds exactly
      when the required keys are present, and otherwise names the first
      missing one. */
  function DictToConfig(data: map<string, Json>): (r: Conversion)
    ensures r.Raised? && r.error.MissingKey? ==> r.error.key in RequiredKeys && r.error.key !in data
    ensures !r.Raised? ==> RequiredKeys <= data.Keys
    ensures AllInRange(data) ==> (r.Built? <==> RequiredKeys <= data.Keys)
    ensures AllInRange(data) && !r.Built? ==> r.Raised? && r.error.MissingKey?
    ensures r == Raised(OverflowError) ==>
      exists k :: k in data && (data[k].JInfinity? || (data[k].JInt? && FloatOverflows(data[k].i)))
    ensures r.Built? ==> Valid(r.config.downloadDirectory)
  {
    if ScoreRaises(data).Some? then Raised(ScoreRaises(data).value)
    else if ScrapesRaises(data).Some? then Raised(ScrapesRaises(data).value)
    else if KeyLetters !in data then Raised(MissingKey(KeyLetters))
    else if KeyDirectory !in data then Raised(MissingKey(KeyDirectory))
    else if KeyDownloads !in data then Raised(MissingKey(KeyDownloads))
    else if IsNumber(data[KeyDownloads]) && IntRaises(data[KeyDownloads]).Some? then
      Raised(IntRaises(data[KeyDownloads]).value)
    else if KeyDelay !in data then Raised(MissingKey(KeyDelay))
    else if IsNumber(data[KeyDelay]) && FloatRaises(data[KeyDelay]).Some? then
      Raised(FloatRaises(data[KeyDelay]).value)
    else if KeyLogLevel !in data then Raised(MissingKey(KeyLogLevel))
    else if ScoreNotFinite(data) || data[KeyDelay].JInfinity? || data[KeyDelay].JNaN? then NotFinite
    else
      var scrapes := if IsNumber(ScrapesRaw(data)) then IntOf(ScrapesRaw(data)) else 3;
      var autoQueue := if KeyAutoQueue in data && data[KeyAutoQueue].JBool? then data[KeyAutoQueue].b else true;
      var downloads := data[KeyDownloads];
      var delay := data[KeyDelay];
      var level := data[KeyLogLevel];
      Built(AppConfig(
        LettersOf(data[KeyLetters]),
        Parse(PyStr(data[KeyDirectory])),
        if IsNumber(downloads) then IntOf(downloads) else 1,
        if IsNumber(delay) then FloatOf(delay) else 2.0,
        if level.JString? then level.s else "INFO",
        ScoreOf(data),
        scrapes,
        autoQueue))
  }

  /** `_dict_to_config(_config_to_dict(c)) == c` for every configuration whose
      directory is one pathlib can hold. */
  lemma DictRoundTrip(c: AppConfig)
    requires Valid(c.downloadDirectory)
    ensures DictToConfig(ConfigToDict(c)) == Built(c)
  {
    var d := ConfigToDict(c);
    ParseToString(c.downloadDirectory);
    assert LettersOf(d[KeyLetters]) == c.targetLetters;
  }

  // ---------------------------------------------------------------------------
  // Loading and saving

  /** What reading the configuration file gives: no file, a path that exists
      but cannot be opened for reading (an OSError such as PermissionError or
      IsADirectoryError, with its text), text that is not JSON (or not UTF-8),
      or a decoded JSON value. */
  datatype ConfigFile = NoFile | Unreadable(error: string) | Undecodable | Decoded(value: Json)

  /** The decoded files whose exception escapes the handler at 49 of
      `load_config`: JSON that is not an object, on which `.get` raises
      AttributeError, and an object whose conversion raises OverflowError. */
  predicate Escapes(file: ConfigFile)
  {
    file.Decoded? && (!file.value.JObject? || DictToConfig(file.value.fields) == Raised(OverflowError))
  }

  /** `load_config` as written: `Err` is an exception that escapes, either the
      OSError of `open` or one of `Escapes`; the KeyError and ValueError of
      the conversion are caught and give the defaults.  A configuration
      holding an infinite float fails validation and gives the defaults. */
  function LoadConfigAsWritten(file: ConfigFile, home: Path): (r: Result<AppConfig>)
    ensures r.Err? <==> file.Unreadable? || Escapes(file)
    ensures file.Unreadable? ==> r == Err(file.error)
    ensures r.Ok? ==>
      (r.value == DefaultConfig(home)
       || (file.Decoded? && file.value.JObject? && DictToConfig(file.value.fields) == Built(r.value)
           && ConfigErrors(r.value) == []))
  {
    match file
    case NoFile => Ok(DefaultConfig(home))
    case Unreadable(e) => Err(e)
    case Undecodable => Ok(DefaultConfig(home))
    case Decoded(v) =>
      if !v.JObject? then Err("AttributeError")
      else
        var parsed := DictToConfig(v.fields);
        if parsed == Raised(OverflowError) then Err("OverflowError")
        else if !parsed.Built? then Ok(DefaultConfig(home))
        else if ConfigErrors(parsed.config) != [] then Ok(DefaultConfig(home))
        else Ok(parsed.config)
  }

  /** An object whose `concurrent_scrapes` is an infinity, such as `1e400`,
      makes loading raise OverflowError, whatever else it holds: `int()` at
      160 raises it unless the score at 154 already has. */
  lemma InfiniteScrapesEscape(data: map<string, Json>, home: Path)
    requires KeyScrapes in data && data[KeyScrapes].JInfinity?
    ensures LoadConfigAsWritten(Decoded(JObject(data)), home) == Err("OverflowError")
  {
    assert ScrapesRaises(data) == Some(OverflowError);
    assert ScoreRaises(data).Some? ==> ScoreRaises(data) == Some(OverflowError);
    assert DictToConfig(data) == Raised(OverflowError);
  }

  /** An object whose `minimum_score` is an int past the double range makes
      loading raise OverflowError, whatever else it holds. */
  lemma HugeScoreEscapes(data: map<string, Json>, home: Path)
    requires KeyScore in data && data[KeyScore].JInt? && FloatOverflows(data[KeyScore].i)
    ensures LoadConfigAsWritten(Decoded(JObject(data)), home) == Err("OverflowError")
  {
    assert DictToConfig(data) == Raised(OverflowError);
  }

  /** The file decodes to JSON that is not an object, such as `[]`, and
      loading fails instead of falling back to the defaults. */
  lemma LoadNonObjectEscapes(home: Path)
    ensures LoadConfigAsWritten(Decoded(JList([])), home).Err?
  {
  }

  /** `load_config` with every file whose content is unusable falling back to
      the defaults: the result is the default configuration or the one stored
      in the file, and a stored one is returned only when it passes
      validation.  A file that cannot be opened still raises its OSError. */
  function LoadConfig(file: ConfigFile, home: Path): (r: Result<AppConfig>)
    ensures r.Err? <==> file.Unreadable?
    ensures r.Err? ==> r.error == file.error
    ensures r.Ok? ==>
      (r.value == DefaultConfig(home)
       || (file.Decoded? && file.value.JObject? && DictToConfig(file.value.fields) == Built(r.value)
           && ConfigErrors(r.value) == []))
    ensures file.NoFile? || file.Undecodable? ==> r == Ok(DefaultConfig(home))
  {
    match file
    case NoFile => Ok(DefaultConfig(home))
    case Unreadable(e) => Err(e)
    case Undecodable => Ok(DefaultConfig(home))
    case Decoded(v) =>
      if !v.JObject? then Ok(DefaultConfig(home))
      else
        var parsed := DictToConfig(v.fields);
        if !parsed.Built? then Ok(DefaultConfig(home))
        else if ConfigErrors(parsed.config) != [] then Ok(DefaultConfig(home))
        else Ok(parsed.config)
  }

  /** The corrected loader agrees with the code exactly on the files whose
      exception does not escape. */
  lemma LoadConfigAgrees(file: ConfigFile, home: Path)
    ensures LoadConfigAsWritten(file, home) == LoadConfig(file, home) <==> !Escapes(file)
  {
  }

  /** Whatever a readable file holds, the loaded configuration passes
      validation. */
  lemma LoadedIsValid(file: ConfigFile, home: Path)
    requires home.absolute
    ensures LoadConfig(file, home).Ok? <==> !file.Unreadable?
    ensures LoadConfig(file, home).Ok? ==> ConfigErrors(LoadConfig(file, home).value) == []
  {
    DefaultIsValid(home);
  }

  /** `save_config`: an invalid configuration raises ValueError before
      anything is written; otherwise the object written is `_config_to_dict`. */
  function SaveConfig(c: AppConfig): (r: Result<map<string, Json>>)
    ensures r.Ok? <==> ConfigErrors(c) == []
    ensures r.Ok? ==> r.value == ConfigToDict(c)
    ensures r.Err? ==> r.error == "Invalid configuration: " + Join(ConfigErrors(c), ", ")
  {
    var errors := ConfigErrors(c);
    if errors != [] then Err("Invalid configuration: " + Join(errors, ", "))
    else Ok(ConfigToDict(c))
  }

  /** Loading what was saved gives the saved configuration back. */
  lemma SaveThenLoad(c: AppConfig, home: Path)
    requires Valid(c.downloadDirectory)
    requires SaveConfig(c).Ok?
    ensures LoadConfig(Decoded(JObject(SaveConfig(c).value)), home) == Ok(c)
  {
    DictRoundTrip(c);
  }
}
