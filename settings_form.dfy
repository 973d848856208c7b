/**
 * The settings screen's form: the per-field validation of the five text
 * fields, the error map the screen keeps, and the configuration built from
 * a valid form.  The widgets are not modelled; their texts are the fields of
 * `FormValues`.
 */
module SettingsForm {
  import opened Common
  import opened Paths
  import opened Models
  import Numbers
  import Config

  /** The texts read from the form's widgets. */
  datatype FormValues = FormValues(
    targetLetters: string,
    downloadDirectory: string,
    concurrentDownloads: string,
    requestDelay: string,
    logLevel: string)

  /** `_get_form_values`: the log level is "INFO" when nothing is selected. */
  function ReadForm(letters: string, directory: string, concurrent: string, delay: string,
                    selected: Option<string>): (v: FormValues)
    ensures selected.Some? && selected.value != "" ==> v.logLevel == selected.value
    ensures selected.None? || selected.value == "" ==> v.logLevel == "INFO"
  {
    var level := if selected.Some? && selected.value != "" then selected.value else "INFO";
    FormValues(letters, directory, concurrent, delay, level)
  }

  // ---------------------------------------------------------------------------
  // Target letters

  /** `[l.strip().upper() for l in pieces if l.strip()]` */
  function CleanPieces(pieces: seq<string>): (r: seq<string>)
    ensures |r| <= |pieces|
  {
    if pieces == [] then []
    else
      var p := Strip(pieces[0]);
      (if p != "" then [Upper(p)] else []) + CleanPieces(pieces[1..])
  }

  /** No lowercase letter occurs in `s`, as after `s.upper()`. */
  predicate NoLower(s: string)
  {
    forall i :: 0 <= i < |s| ==> !IsLower(s[i])
  }

  /** The letters of a comma-separated text. */
  function FormLetters(text: string): seq<string>
  {
    CleanPieces(Split(text, ','))
  }

  /** A cleaned piece: non-empty and uppercase. */
  predicate IsClean(p: string)
  {
    p != "" && NoLower(p)
  }

  /** Every cleaned piece is non-empty and uppercase. */
  lemma {:induction false} CleanedPieces(pieces: seq<string>)
    ensures forall k :: 0 <= k < |CleanPieces(pieces)| ==> IsClean(CleanPieces(pieces)[k])
  {
    if pieces != [] {
      CleanedPieces(pieces[1..]);
      var p := Strip(pieces[0]);
      var head := if p != "" then [Upper(p)] else [];
      assert forall k :: 0 <= k < |head| ==> IsClean(head[k]);
      assert CleanPieces(pieces) == head + CleanPieces(pieces[1..]);
      AllCleanConcat(head, CleanPieces(pieces[1..]));
    }
  }

  lemma AllCleanConcat(a: seq<string>, b: seq<string>)
    requires forall k :: 0 <= k < |a| ==> IsClean(a[k])
    requires forall k :: 0 <= k < |b| ==> IsClean(b[k])
    ensures forall k :: 0 <= k < |a + b| ==> IsClean((a + b)[k])
  {
  }

  lemma {:induction false} CleanConcat(a: seq<string>, b: seq<string>)
    ensures CleanPieces(a + b) == CleanPieces(a) + CleanPieces(b)
  {
    if a == [] {
      assert a + b == b;
    } else {
      assert (a + b)[1..] == a[1..] + b;
      CleanConcat(a[1..], b);
    }
  }

  /** Pieces that strip to the same text clean to the same letters. */
  lemma CleanSameStrip(a: string, b: string, rest: seq<string>)
    requires Strip(a) == Strip(b)
    ensures CleanPieces([a] + rest) == CleanPieces([b] + rest)
  {
    assert ([a] + rest)[1..] == rest;
    assert ([b] + rest)[1..] == rest;
  }

  /** Stripping the whole text first does not change its letters, because
      every piece is stripped anyway. */
  lemma FormLettersOfStripped(text: string)
    ensures FormLetters(Strip(text)) == FormLetters(text)
  {
    var w1, w2 := StripParts(text);
    var t := Strip(text);
    TrailingSpaceLetters(w1 + t, w2);
    LeadingSpaceLetters(w1, t);
  }

  lemma NoComma(w: string)
    requires AllSpace(w)
    ensures ',' !in w
  {
    assert forall i :: 0 <= i < |w| ==> w[i] != ',';
  }

  /** Trailing whitespace joins the last piece, which is stripped anyway. */
  lemma TrailingSpaceLetters(s: string, w: string)
    requires AllSpace(w)
    ensures FormLetters(s + w) == FormLetters(s)
  {
    NoComma(w);
    var q := Split(s, ',');
    SplitAppend(s, w, ',');
    var init := q[..|q| - 1];
    var last := q[|q| - 1];
    LastSameStrip(last, w);
    CleanLastSameStrip(init, last + w, last);
    InitLast(q);
  }

  lemma InitLast<T>(q: seq<T>)
    requires |q| > 0
    ensures q[..|q| - 1] + [q[|q| - 1]] == q
  {
  }

  lemma LastSameStrip(last: string, w: string)
    requires AllSpace(w)
    ensures Strip(last + w) == Strip(last)
  {
    var none: string := "";
    assert none + last == last;
    StripSpaceAround(none, last, w);
  }

  /** Pieces that strip to the same text clean to the same letters at the end
      of a list too. */
  lemma CleanLastSameStrip(init: seq<string>, a: string, b: string)
    requires Strip(a) == Strip(b)
    ensures CleanPieces(init + [a]) == CleanPieces(init + [b])
  {
    CleanConcat(init, [a]);
    CleanConcat(init, [b]);
    CleanSameStrip(a, b, []);
    assert [a] + [] == [a];
    assert [b] + [] == [b];
  }

  /** Leading whitespace joins the first piece, which is stripped anyway. */
  lemma LeadingSpaceLetters(w: string, t: string)
    requires AllSpace(w)
    ensures FormLetters(w + t) == FormLetters(t)
  {
    NoComma(w);
    var p := Split(t, ',');
    SplitPrepend(w, t, ',');
    var none: string := "";
    assert w + p[0] + none == w + p[0];
    StripSpaceAround(w, p[0], none);
    CleanSameStrip(w + p[0], p[0], p[1..]);
    assert [p[0]] + p[1..] == p;
  }

  /** The entries of a letter list are all single letters. */
  predicate AllLetters(letters: seq<string>)
  {
    forall k :: 0 <= k < |letters| ==> Config.IsLetter(letters[k])
  }

  const LettersBlank := "Target letters cannot be empty"
  const LettersNone := "At least one letter is required"
  const LettersNotSingle := "Each entry must be a single letter"

  function LettersError(text: string): (r: Option<string>)
    ensures r.None? <==> FormLetters(Strip(text)) != [] && AllLetters(FormLetters(Strip(text)))
    ensures Strip(text) == "" ==> r == Some(LettersBlank)
    ensures Strip(text) != "" && FormLetters(Strip(text)) == [] ==> r == Some(LettersNone)
    ensures FormLetters(Strip(text)) != [] && !AllLetters(FormLetters(Strip(text))) ==> r == Some(LettersNotSingle)
  {
    var s := Strip(text);
    if s == "" then
      assert FormLetters(s) == [] by {
        assert Split(s, ',') == [""];
      }
      Some(LettersBlank)
    else
      var letters := FormLetters(s);
      if letters == [] then Some(LettersNone)
      else if !AllLetters(letters) then Some(LettersNotSingle)
      else None
  }

  // ---------------------------------------------------------------------------
  // The other fields

  const DirectoryBlank := "Download directory cannot be empty"
  const DirectoryRelative := "Path must be absolute"

  function DirectoryError(text: string): (r: Option<string>)
    ensures r.None? <==> StartsWith(Strip(text), "/")
    ensures Strip(text) == "" ==> r == Some(DirectoryBlank)
    ensures Strip(text) != "" && !StartsWith(Strip(text), "/") ==> r == Some(DirectoryRelative)
  {
    var s := Strip(text);
    if s == "" then Some(DirectoryBlank)
    else if !Parse(s).absolute then Some(DirectoryRelative)
    else None
  }

  const ConcurrentBlank := "Concurrent downloads is required"
  const ConcurrentTooFew := "Must be at least 1"
  const ConcurrentTooMany := "Cannot exceed 10"
  const ConcurrentNotInteger := "Must be a valid integer"

  function ConcurrentError(text: string): (r: Option<string>)
    ensures r.None? <==> Numbers.ParseInt(text).Some? && 1 <= Numbers.ParseInt(text).value <= 10
    ensures Strip(text) == "" ==> r == Some(ConcurrentBlank)
    ensures Strip(text) != "" && Numbers.ParseInt(text).None? ==> r == Some(ConcurrentNotInteger)
    ensures Numbers.ParseInt(text).Some? && Numbers.ParseInt(text).value < 1 ==> r == Some(ConcurrentTooFew)
    ensures Numbers.ParseInt(text).Some? && Numbers.ParseInt(text).value > 10 ==> r == Some(ConcurrentTooMany)
  {
    var s := Strip(text);
    StripIdempotent(text);
    if s == "" then
      assert Numbers.ParseInt(text).None?;
      Some(ConcurrentBlank)
    else
      match Numbers.ParseInt(s)
      case None => Some(ConcurrentNotInteger)
      case Some(n) =>
        if n < 1 then Some(ConcurrentTooFew)
        else if n > 10 then Some(ConcurrentTooMany)
        else None
  }

  const DelayBlank := "Request delay is required"
  const DelayNegative := "Cannot be negative"
  const DelayTooLong := "Cannot exceed 60 seconds"
  const DelayNotNumber := "Must be a valid number"

  function DelayError(text: string): (r: Option<string>)
    ensures r.None? <==> Numbers.ParseFloat(text).Some? && 0.0 <= Numbers.ParseFloat(text).value <= 60.0
    ensures Strip(text) == "" ==> r == Some(DelayBlank)
    ensures Strip(text) != "" && Numbers.ParseFloat(text).None? ==> r == Some(DelayNotNumber)
    ensures Numbers.ParseFloat(text).Some? && Numbers.ParseFloat(text).value < 0.0 ==> r == Some(DelayNegative)
    ensures Numbers.ParseFloat(text).Some? && Numbers.ParseFloat(text).value > 60.0 ==> r == Some(DelayTooLong)
  {
    var s := Strip(text);
    StripIdempotent(text);
    if s == "" then
      assert Numbers.ParseFloat(text).None?;
      Some(DelayBlank)
    else
      match Numbers.ParseFloat(s)
      case None => Some(DelayNotNumber)
      case Some(d) =>
        if d < 0.0 then Some(DelayNegative)
        else if d > 60.0 then Some(DelayTooLong)
        else None
  }

  /** The source joins a Python set here, whose order is not fixed; this model
      lists the names in their order of severity. */
  const LevelUnknown := "Must be one of: DEBUG, INFO, WARNING, ERROR, CRITICAL"

  function LogLevelError(level: string): (r: Option<string>)
    ensures r.None? <==> level in Config.LogLevels
  {
    if level !in Config.LogLevels then Some(LevelUnknown) else None
  }

  // ---------------------------------------------------------------------------
  // The whole form

  /** The form's fields, which key its error map; `KeyOf` is the key the
      source uses. */
  datatype FormField = LettersField | DirectoryField | DownloadsField | DelayField | LogLevelField

  function KeyOf(f: FormField): (r: string)
    ensures f == LettersField ==> r == Config.KeyLetters
    ensures f == DirectoryField ==> r == Config.KeyDirectory
    ensures f == DownloadsField ==> r == Config.KeyDownloads
    ensures f == DelayField ==> r == Config.KeyDelay
    ensures f == LogLevelField ==> r == Config.KeyLogLevel
  {
    match f
    case LettersField => Config.KeyLetters
    case DirectoryField => Config.KeyDirectory
    case DownloadsField => Config.KeyDownloads
    case DelayField => Config.KeyDelay
    case LogLevelField => Config.KeyLogLevel
  }

  /** `errors[key] = message` when a field's check fails. */
  function Put(m: map<FormField, string>, key: FormField, o: Option<string>): (r: map<FormField, string>)
    ensures forall f :: f in r <==> f in m || (o.Some? && f == key)
    ensures forall f :: f in m && f != key ==> r[f] == m[f]
    ensures o.Some? ==> r[key] == o.value
  {
    if o.Some? then m[key := o.value] else m
  }

  /** The error map `_validate_form` builds: at most one message per field. */
  function FormErrors(v: FormValues): (r: map<FormField, string>)
    ensures forall f :: f in r <==> FieldError(v, f).Some?
  {
    ErrorsOfKeys(LettersError(v.targetLetters), DirectoryError(v.downloadDirectory),
      ConcurrentError(v.concurrentDownloads), DelayError(v.requestDelay), LogLevelError(v.logLevel));
    ErrorsOf(LettersError(v.targetLetters), DirectoryError(v.downloadDirectory),
      ConcurrentError(v.concurrentDownloads), DelayError(v.requestDelay), LogLevelError(v.logLevel))
  }

  lemma ErrorsOfKeys(o0: Option<string>, o1: Option<string>, o2: Option<string>,
                     o3: Option<string>, o4: Option<string>)
    ensures forall f :: f in ErrorsOf(o0, o1, o2, o3, o4) <==> Select(f, o0, o1, o2, o3, o4).Some?
  {
    forall f ensures f in ErrorsOf(o0, o1, o2, o3, o4) <==> Select(f, o0, o1, o2, o3, o4).Some? {
      ErrorsOfByField(f, o0, o1, o2, o3, o4);
    }
  }

  /** The field checks' outcomes entered into a map, in the form's order. */
  function ErrorsOf(o0: Option<string>, o1: Option<string>, o2: Option<string>,
                    o3: Option<string>, o4: Option<string>): map<FormField, string>
  {
    var m0 := Put(map[], LettersField, o0);
    var m1 := Put(m0, DirectoryField, o1);
    var m2 := Put(m1, DownloadsField, o2);
    var m3 := Put(m2, DelayField, o3);
    Put(m3, LogLevelField, o4)
  }

  /** The outcome belonging to field `f`. */
  function Select(f: FormField, o0: Option<string>, o1: Option<string>, o2: Option<string>,
                  o3: Option<string>, o4: Option<string>): Option<string>
  {
    match f
    case LettersField => o0
    case DirectoryField => o1
    case DownloadsField => o2
    case DelayField => o3
    case LogLevelField => o4
  }

  /** The check of one field. */
  function FieldError(v: FormValues, f: FormField): Option<string>
  {
    Select(f, LettersError(v.targetLetters), DirectoryError(v.downloadDirectory),
      ConcurrentError(v.concurrentDownloads), DelayError(v.requestDelay), LogLevelError(v.logLevel))
  }

  /** What a valid form is, stated field by field. */
  predicate FormOk(v: FormValues)
  {
    && FormLetters(Strip(v.targetLetters)) != [] && AllLetters(FormLetters(Strip(v.targetLetters)))
    && StartsWith(Strip(v.downloadDirectory), "/")
    && Numbers.ParseInt(v.concurrentDownloads).Some?
    && 1 <= Numbers.ParseInt(v.concurrentDownloads).value <= 10
    && Numbers.ParseFloat(v.requestDelay).Some?
    && 0.0 <= Numbers.ParseFloat(v.requestDelay).value <= 60.0
    && v.logLevel in Config.LogLevels
  }

  /** A field has an entry in the error map exactly when its check fails, and
      the entry is that check's message. */
  lemma FormErrorsByField(v: FormValues, f: FormField)
    ensures f in FormErrors(v) <==> FieldError(v, f).Some?
    ensures f in FormErrors(v) ==> FormErrors(v)[f] == FieldError(v, f).value
  {
    ErrorsOfByField(f, LettersError(v.targetLetters), DirectoryError(v.downloadDirectory),
      ConcurrentError(v.concurrentDownloads), DelayError(v.requestDelay), LogLevelError(v.logLevel));
  }

  lemma ErrorsOfByField(f: FormField, o0: Option<string>, o1: Option<string>, o2: Option<string>,
                        o3: Option<string>, o4: Option<string>)
    ensures f in ErrorsOf(o0, o1, o2, o3, o4) <==> Select(f, o0, o1, o2, o3, o4).Some?
    ensures f in ErrorsOf(o0, o1, o2, o3, o4) ==>
      ErrorsOf(o0, o1, o2, o3, o4)[f] == Select(f, o0, o1, o2, o3, o4).value
  {
  }

  /** The form is valid exactly when the error map is empty, that is when
      every field meets its rule. */
  lemma FormValidIff(v: FormValues)
    ensures FormErrors(v) == map[] <==> FormOk(v)
  {
    var e := FormErrors(v);
    if FormOk(v) {
      assert e.Keys == {};
    } else {
      assert e.Keys != {};
    }
  }

  // ---------------------------------------------------------------------------
  // Building the configuration

  /** `_build_config_from_form` as written: the directory is taken from the
      unstripped text, although validation looked at the stripped one.  The
      three fields the form does not show take their defaults. */
  function BuildConfigAsWritten(v: FormValues): (r: Option<AppConfig>)
    ensures r.Some? <==> FormOk(v)
  {
    FormValidIff(v);
    if FormErrors(v) != map[] then None
    else
      Some(AppConfig(
        FormLetters(v.targetLetters),
        Parse(v.downloadDirectory),
        Numbers.ParseInt(v.concurrentDownloads).value,
        Numbers.ParseFloat(v.requestDelay).value,
        v.logLevel,
        None, 3, true))
  }

  /** A valid form whose directory text starts with a space builds a relative
      directory, and the configuration service rejects the result. */
  lemma LeadingSpaceDirectoryRejected(v: FormValues)
    requires FormOk(v)
    requires v.downloadDirectory != [] && v.downloadDirectory[0] == ' '
    ensures BuildConfigAsWritten(v).Some?
    ensures !BuildConfigAsWritten(v).value.downloadDirectory.absolute
    ensures Config.ConfigErrors(BuildConfigAsWritten(v).value) != []
  {
    var c := BuildConfigAsWritten(v).value;
    assert Config.DirectoryCheck(c.downloadDirectory).Some?;
    assert Config.Issues(c) != [];
  }

  /** `_build_config_from_form` with the directory taken from the stripped
      text, as validation sees it. */
  function BuildConfigFromForm(v: FormValues): (r: Option<AppConfig>)
    ensures r.Some? <==> FormOk(v)
  {
    FormValidIff(v);
    if FormErrors(v) != map[] then None
    else
      Some(AppConfig(
        FormLetters(v.targetLetters),
        Parse(Strip(v.downloadDirectory)),
        Numbers.ParseInt(v.concurrentDownloads).value,
        Numbers.ParseFloat(v.requestDelay).value,
        v.logLevel,
        None, 3, true))
  }

  /** The code's builder and the corrected one differ only in the directory,
      and agree whenever the directory text has no surrounding whitespace. */
  lemma BuildersAgreeOnStripped(v: FormValues)
    ensures BuildConfigAsWritten(v).Some? <==> BuildConfigFromForm(v).Some?
    ensures BuildConfigAsWritten(v).Some? ==>
      BuildConfigAsWritten(v).value == BuildConfigFromForm(v).value.(downloadDirectory := Parse(v.downloadDirectory))
    ensures Strip(v.downloadDirectory) == v.downloadDirectory ==> BuildConfigAsWritten(v) == BuildConfigFromForm(v)
  {
  }

  /** Every form that passes the form's checks builds a configuration that
      passes the configuration service's checks. */
  lemma BuiltConfigIsValid(v: FormValues)
    requires FormOk(v)
    ensures BuildConfigFromForm(v).Some?
    ensures Config.ConfigErrors(BuildConfigFromForm(v).value) == []
  {
    BuiltConfigValue(v);
    var c := BuildConfigFromForm(v).value;
    FormLettersOfStripped(v.targetLetters);
    Config.ValidIffRulesHold(c);
    assert Config.ConfigOk(c);
  }

  lemma BuiltConfigValue(v: FormValues)
    requires FormOk(v)
    ensures BuildConfigFromForm(v) == Some(AppConfig(
        FormLetters(v.targetLetters),
        Parse(Strip(v.downloadDirectory)),
        Numbers.ParseInt(v.concurrentDownloads).value,
        Numbers.ParseFloat(v.requestDelay).value,
        v.logLevel,
        None, 3, true))
  {
    FormValidIff(v);
  }

  /** The built configuration holds the form's letters, trimmed and
      uppercased, and the parsed numbers. */
  lemma BuiltConfigFields(v: FormValues)
    requires FormOk(v)
    ensures var c := BuildConfigFromForm(v).value;
      && c.targetLetters == FormLetters(v.targetLetters)
      && (forall k :: 0 <= k < |c.targetLetters| ==> IsClean(c.targetLetters[k]))
      && Numbers.ParseInt(v.concurrentDownloads) == Some(c.concurrentDownloads)
      && Numbers.ParseFloat(v.requestDelay) == Some(c.requestDelay)
  {
    BuiltConfigValue(v);
    FormLettersOfStripped(v.targetLetters);
    CleanedPieces(Split(v.targetLetters, ','));
  }

  // ---------------------------------------------------------------------------
  // The screen

  /** The settings screen's validation state. */
  class SettingsScreen {
    var validationErrors: map<FormField, string>

    constructor ()
      ensures validationErrors == map[]
    {
      validationErrors := map[];
    }

    /** `_validate_form`: the errors are stored on the screen and returned,
        with validity exactly when there are none. */
    method ValidateForm(v: FormValues) returns (valid: bool, errors: map<FormField, string>)
      modifies this
      ensures errors == FormErrors(v) && validationErrors == errors
      ensures valid <==> FormOk(v)
    {
      errors := FormErrors(v);
      validationErrors := errors;
      FormValidIff(v);
      valid := |errors| == 0;
    }

    /** `_build_config_from_form`, which validates the form first and then
        takes the directory from the unstripped text. */
    method BuildConfig(v: FormValues) returns (c: Option<AppConfig>)
      modifies this
      ensures validationErrors == FormErrors(v)
      ensures c == BuildConfigAsWritten(v)
      ensures c.Some? <==> FormOk(v)
    {
      var valid, _ := ValidateForm(v);
      if !valid {
        return None;
      }
      c := BuildConfigAsWritten(v);
    }
  }
}
