/**
 * The error taxonomy of the application: the error kinds with their
 * suggestions and technical details, the conversion of an arbitrary raised
 * exception into an application error, the HTTP status messages, the
 * user-message layout, and the error-handling service with its bounded
 * history and its recovery-state map.
 *
 * A raised exception is modelled by what the conversion inspects: which of
 * the handled exception classes it is an instance of (the first that the
 * conversion tests), its class name and its text.
 */
module Errors {
  import opened Common

  datatype ErrorCategory = Network | FileSystem | Validation | Configuration | Scraping | Download | Unexpected

  datatype ErrorSeverity = Warning | Error | Critical

  datatype ErrorContext = ErrorContext(operation: string, component: string, details: map<string, string>)

  datatype AppError = AppError(
    message: string,
    category: ErrorCategory,
    severity: ErrorSeverity,
    suggestedActions: seq<string>,
    technicalDetails: Option<string>,
    recoverable: bool,
    context: Option<ErrorContext>)

  datatype UserFriendlyError = UserFriendlyError(
    message: string,
    category: ErrorCategory,
    severity: ErrorSeverity,
    suggestedActions: seq<string>,
    technicalDetails: Option<string>,
    recoverable: bool)

  /** The most specific handled class an exception is an instance of. */
  datatype ExceptionKind =
    | Connect                                          // httpx.ConnectError
    | Timeout                                          // httpx.TimeoutException
    | HttpStatus(status: int, requestUrl: Option<string>)  // httpx.HTTPStatusError
    | Request                                          // other httpx.RequestError
    | Permission                                       // PermissionError
    | NotFound                                         // FileNotFoundError
    | OS                                               // other OSError
    | Value                                            // ValueError
    | Type                                             // TypeError
    | Other                                            // anything else

  /** An exception that is not an application error. */
  datatype Cause = Cause(kind: ExceptionKind, typeName: string, text: string)

  datatype Raised = Application(error: AppError) | Foreign(cause: Cause)

  function ToUserFriendly(e: AppError): (u: UserFriendlyError)
    ensures u.message == e.message && u.category == e.category && u.severity == e.severity
    ensures u.suggestedActions == e.suggestedActions && u.technicalDetails == e.technicalDetails
    ensures u.recoverable == e.recoverable
  {
    UserFriendlyError(e.message, e.category, e.severity, e.suggestedActions, e.technicalDetails, e.recoverable)
  }

  // ---------------------------------------------------------------------------
  // Technical details

  /** `f"{type(e).__name__}: {str(e)}"` */
  function CauseLine(c: Cause): (r: string)
    ensures r != ""
  {
    c.typeName + ": " + c.text
  }

  /** A detail line that is present only when its value is. */
  function LineIf(present: bool, line: string): Option<string>
  {
    if present then Some(line) else None
  }

  /** `td = line + (f"\n{td}" if td else "")` */
  function PrependLine(line: Option<string>, td: Option<string>): Option<string>
  {
    match line
    case None => td
    case Some(l) => Some(l + (if td.Some? && td.value != "" then "\n" + td.value else ""))
  }

  /** `td = (td or "") + f"\n{line}"` */
  function AppendLine(td: Option<string>, line: Option<string>): Option<string>
  {
    match line
    case None => td
    case Some(l) => Some((if td.Some? then td.value else "") + "\n" + l)
  }

  /** The lines that are present, in order. */
  function Present(lines: seq<Option<string>>): (r: seq<string>)
    ensures |r| <= |lines|
  {
    if lines == [] then []
    else (if lines[0].Some? then [lines[0].value] else []) + Present(lines[1..])
  }

  predicate NonEmptyLines(lines: seq<Option<string>>)
  {
    forall k :: 0 <= k < |lines| && lines[k].Some? ==> lines[k].value != ""
  }

  /** The reference layout: the present lines joined by newlines, or nothing. */
  function JoinPresent(lines: seq<Option<string>>): Option<string>
  {
    var p := Present(lines);
    if p == [] then None else Some(Join(p, "\n"))
  }

  lemma {:induction false} JoinNonEmpty(parts: seq<string>, sep: string)
    requires parts != [] && forall k :: 0 <= k < |parts| ==> parts[k] != ""
    ensures Join(parts, sep) != []
  {
    if |parts| > 1 {
      JoinNonEmpty(parts[1..], sep);
    }
  }

  lemma PresentNonEmpty(lines: seq<Option<string>>)
    requires NonEmptyLines(lines)
    ensures forall k :: 0 <= k < |Present(lines)| ==> Present(lines)[k] != ""
  {
    if lines != [] {
      PresentNonEmpty(lines[1..]);
    }
  }

  /** Prepending one line to the layout of the rest gives the layout of the whole. */
  lemma PrependJoin(line: Option<string>, rest: seq<Option<string>>)
    requires NonEmptyLines([line] + rest)
    ensures PrependLine(line, JoinPresent(rest)) == JoinPresent([line] + rest)
  {
    var all := [line] + rest;
    assert all[1..] == rest;
    assert NonEmptyLines(rest) by {
      forall k | 0 <= k < |rest| && rest[k].Some? ensures rest[k].value != "" {
        assert all[k + 1] == rest[k];
      }
    }
    PresentNonEmpty(rest);
    var p := Present(rest);
    assert Present(all) == (if line.Some? then [line.value] else []) + p;
    if line.Some? {
      if p != [] {
        JoinNonEmpty(p, "\n");
        assert ([line.value] + p)[1..] == p;
        assert line.value + ("\n" + Join(p, "\n")) == line.value + "\n" + Join(p, "\n");
      } else {
        assert Present(all) == [line.value];
        assert line.value + "" == line.value;
      }
    } else {
      assert Present(all) == p;
    }
  }

  lemma {:induction false} PresentEmpty(lines: seq<Option<string>>)
    ensures Present(lines) == [] <==> forall k :: 0 <= k < |lines| ==> lines[k].None?
  {
    if lines != [] {
      PresentEmpty(lines[1..]);
      assert forall k :: 1 <= k < |lines| ==> lines[k] == lines[1..][k - 1];
    }
  }

  /** The suffix a chain of appended lines adds: "\n" before each present line. */
  function Appended(lines: seq<Option<string>>): string
  {
    if lines == [] then ""
    else (if lines[0].Some? then "\n" + lines[0].value else "") + Appended(lines[1..])
  }

  /** Appending the lines one after another, as the detail builders do. */
  function AppendAll(td: Option<string>, lines: seq<Option<string>>): Option<string>
    decreases |lines|
  {
    if lines == [] then td else AppendAll(AppendLine(td, lines[0]), lines[1..])
  }

  /** Appended lines leave the details absent only when none is present;
      otherwise each present line follows on its own line, the first one too
      (so the details start with a newline when the first value was absent). */
  lemma {:induction false} AppendAllShape(td: Option<string>, lines: seq<Option<string>>)
    ensures AppendAll(td, lines).None? <==> td.None? && Present(lines) == []
    ensures AppendAll(td, lines).Some? ==>
      AppendAll(td, lines).value == (if td.Some? then td.value else "") + Appended(lines)
  {
    AppendAllAbsent(td, lines);
    AppendAllText(td, lines);
  }

  lemma {:induction false} AppendAllAbsent(td: Option<string>, lines: seq<Option<string>>)
    ensures AppendAll(td, lines).None? <==> td.None? && Present(lines) == []
    decreases |lines|
  {
    if lines != [] {
      AppendAllAbsent(AppendLine(td, lines[0]), lines[1..]);
      assert Present(lines) == (if lines[0].Some? then [lines[0].value] else []) + Present(lines[1..]);
    }
  }

  lemma {:induction false} AppendAllText(td: Option<string>, lines: seq<Option<string>>)
    ensures AppendAll(td, lines).Some? ==>
      AppendAll(td, lines).value == (if td.Some? then td.value else "") + Appended(lines)
    decreases |lines|
  {
    var t := if td.Some? then td.value else "";
    if lines == [] {
      assert t + "" == t;
    } else {
      var rest := lines[1..];
      var next := AppendLine(td, lines[0]);
      AppendAllText(next, rest);
      if lines[0].Some? {
        var l := lines[0].value;
        assert (t + "\n" + l) + Appended(rest) == t + Appended(lines);
      } else {
        assert Appended(lines) == Appended(rest);
      }
    }
  }

  // ---------------------------------------------------------------------------
  // Error kinds

  const DefaultNetworkActions: seq<string> :=
    ["Check your internet connection", "Verify the URL is correct", "Try again in a few moments"]
  const RateLimitActions: seq<string> :=
    ["Wait a few minutes before retrying", "Reduce the request frequency in settings"]
  const MissingResourceActions: seq<string> :=
    ["The requested resource may no longer exist", "Check if the URL is correct"]
  const ServerActions: seq<string> := ["The server is experiencing issues", "Try again later"]

  /** `if status_code:` is false for an absent or zero status. */
  function Truthy(status: Option<int>): bool { status.Some? && status.value != 0 }

  function NetworkActions(status: Option<int>): (r: seq<string>)
    ensures |r| == 2 || r == DefaultNetworkActions
  {
    if !Truthy(status) then DefaultNetworkActions
    else if status.value == 429 then RateLimitActions
    else if status.value == 404 then MissingResourceActions
    else if status.value >= 500 then ServerActions
    else DefaultNetworkActions
  }

  /** Status, URL and cause lines, each prepended to the ones after it. */
  function NetworkDetails(cause: Option<Cause>, url: Option<string>, status: Option<int>): Option<string>
  {
    var td := LineIf(cause.Some?, if cause.Some? then CauseLine(cause.value) else "");
    var td := if url.Some? && url.value != "" then PrependLine(Some("URL: " + url.value), td) else td;
    if Truthy(status) then PrependLine(Some("Status: " + IntToString(status.value)), td) else td
  }

  /** `NetworkError(...)` */
  function NetworkError(message: string, cause: Option<Cause>, url: Option<string>, status: Option<int>): (e: AppError)
    ensures e.category == Network && e.severity == Error && e.recoverable
    ensures e.message == message && e.context.None?
  {
    AppError(message, Network, Error, NetworkActions(status), NetworkDetails(cause, url, status), true, None)
  }

  const PermissionActions: seq<string> :=
    ["Check file/directory permissions", "Try running with appropriate permissions", "Choose a different location"]
  const NotFoundActions: seq<string> :=
    ["Verify the file path is correct", "Check if the file was moved or deleted", "Create the file or directory first"]
  const DiskFullActions: seq<string> :=
    ["Free up disk space", "Choose a different download location", "Delete unnecessary files"]
  const ReadOnlyActions: seq<string> := ["The file system is read-only", "Choose a different location"]
  const DefaultFileActions: seq<string> :=
    ["Check the file path and permissions", "Ensure sufficient disk space", "Try a different location"]

  predicate IsOSErrorKind(k: ExceptionKind) { k.Permission? || k.NotFound? || k.OS? }

  /** `FileSystemError._get_suggested_actions` */
  function FileActions(cause: Option<Cause>): (r: seq<string>)
    ensures cause.None? || !IsOSErrorKind(cause.value.kind) ==> r == DefaultFileActions
    ensures cause.Some? && cause.value.kind.Permission? ==> r == PermissionActions
    ensures cause.Some? && cause.value.kind.NotFound? ==> r == NotFoundActions
    ensures cause.Some? && cause.value.kind.OS? ==>
      var t := Lower(cause.value.text);
      r == if Contains(t, "no space") || Contains(t, "disk full") then DiskFullActions
           else if Contains(t, "read-only") then ReadOnlyActions
           else DefaultFileActions
  {
    if cause.None? then DefaultFileActions
    else match cause.value.kind
      case Permission => PermissionActions
      case NotFound => NotFoundActions
      case OS =>
        var t := Lower(cause.value.text);
        if Find(t, "no space") || Find(t, "disk full") then DiskFullActions
        else if Find(t, "read-only") then ReadOnlyActions
        else DefaultFileActions
      case _ => DefaultFileActions
  }

  function FileDetails(cause: Option<Cause>, path: Option<string>): Option<string>
  {
    var td := LineIf(cause.Some?, if cause.Some? then CauseLine(cause.value) else "");
    if path.Some? && path.value != "" then PrependLine(Some("Path: " + path.value), td) else td
  }

  /** `FileSystemError(...)`; the operation it also records decides nothing. */
  function FileSystemError(message: string, cause: Option<Cause>, path: Option<string>): (e: AppError)
    ensures e.category == FileSystem && e.severity == Error && e.recoverable
    ensures e.message == message && |e.suggestedActions| >= 2
  {
    AppError(message, FileSystem, Error, FileActions(cause), FileDetails(cause, path), true, None)
  }

  const ValidationAction := "Review the input requirements"
  const ConfigurationActions: seq<string> := ["Check the configuration settings", "Reset to default values if needed"]
  const ScrapingActions: seq<string> :=
    ["The page structure may have changed", "Try scraping again later", "Check if the game page is accessible"]
  const DownloadActions: seq<string> :=
    ["Check your internet connection", "Verify sufficient disk space", "Try resuming the download"]

  /** `str(value)[:100]` */
  function Truncated(s: string): (r: string)
    ensures |r| == Min(100, |s|) && r == s[..|r|]
  {
    if |s| <= 100 then s else s[..100]
  }

  function QuoteConstraints(constraints: seq<string>): (r: seq<string>)
    ensures |r| == |constraints|
    ensures forall k :: 0 <= k < |r| ==> r[k] == "Ensure: " + constraints[k]
  {
    if constraints == [] then [] else ["Ensure: " + constraints[0]] + QuoteConstraints(constraints[1..])
  }

  /** `ValidationError(...)` */
  function ValidationError(message: string, field: Option<string>, value: Option<string>, constraints: seq<string>): (e: AppError)
    ensures e.category == Validation && e.severity == Warning && e.recoverable && e.message == message
    ensures e.suggestedActions == [ValidationAction] + QuoteConstraints(constraints)
  {
    var td := LineIf(field.Some? && field.value != "", "Field: " + (if field.Some? then field.value else ""));
    var td := if value.Some? then AppendLine(td, Some("Value: " + Truncated(value.value))) else td;
    AppError(message, Validation, Warning, [ValidationAction] + QuoteConstraints(constraints), td, true, None)
  }

  /** `ConfigurationError(...)` */
  function ConfigurationError(message: string, setting: Option<string>, currentValue: Option<string>,
                              expected: Option<string>): (e: AppError)
    ensures e.category == Configuration && e.severity == Error && e.recoverable && e.message == message
    ensures |e.suggestedActions| == (if expected.Some? && expected.value != "" then 3 else 2)
    ensures e.suggestedActions[..2] == ConfigurationActions
  {
    var actions := ConfigurationActions
      + (if expected.Some? && expected.value != "" then ["Expected: " + expected.value] else []);
    var td := LineIf(setting.Some? && setting.value != "", "Setting: " + (if setting.Some? then setting.value else ""));
    var td := if currentValue.Some? then AppendLine(td, Some("Current: " + currentValue.value)) else td;
    AppError(message, Configuration, Error, actions, td, true, None)
  }

  /** The lines of a scraping error after the game line. */
  function ScrapingTail(url: Option<string>, cause: Option<Cause>): seq<Option<string>>
  {
    [LineIf(url.Some? && url.value != "", "URL: " + (if url.Some? then url.value else "")),
     LineIf(cause.Some?, "Error: " + (if cause.Some? then CauseLine(cause.value) else ""))]
  }

  /** `ScrapingError(...)` */
  function ScrapingError(message: string, gameTitle: Option<string>, url: Option<string>, cause: Option<Cause>): (e: AppError)
    ensures e.category == Scraping && e.severity == Warning && e.recoverable && e.message == message
    ensures |e.suggestedActions| == 3
  {
    var first := LineIf(gameTitle.Some? && gameTitle.value != "", "Game: " + (if gameTitle.Some? then gameTitle.value else ""));
    AppError(message, Scraping, Warning,
             ScrapingActions,
             AppendAll(first, ScrapingTail(url, cause)), true, None)
  }

  /** The scraping details list the game, URL and cause lines that are
      present; without a game line the text starts with a newline. */
  lemma ScrapingDetailsShape(message: string, gameTitle: Option<string>, url: Option<string>, cause: Option<Cause>)
    ensures var e := ScrapingError(message, gameTitle, url, cause);
      var tail := ScrapingTail(url, cause);
      (e.technicalDetails.None? <==> (gameTitle.None? || gameTitle.value == "") && (url.None? || url.value == "") && cause.None?)
      && (gameTitle.Some? && gameTitle.value != "" ==> e.technicalDetails == Some("Game: " + gameTitle.value + Appended(tail)))
  {
    var first := LineIf(gameTitle.Some? && gameTitle.value != "", "Game: " + (if gameTitle.Some? then gameTitle.value else ""));
    var tail := ScrapingTail(url, cause);
    AppendAllShape(first, tail);
    PresentEmpty(tail);
  }

  /** `DownloadError(...)`; `percent` renders the progress as `{:.1f}`. */
  function DownloadError(message: string, fileName: Option<string>, url: Option<string>, bytesDownloaded: int,
                         totalBytes: int, cause: Option<Cause>, percent: real -> string): (e: AppError)
    ensures e.category == Download && e.severity == Error && e.recoverable && e.message == message
    ensures |e.suggestedActions| == 3
    ensures e.technicalDetails.None? <==> (fileName.None? || fileName.value == "") && (url.None? || url.value == "")
                                          && totalBytes <= 0 && cause.None?
  {
    var first := LineIf(fileName.Some? && fileName.value != "", "File: " + (if fileName.Some? then fileName.value else ""));
    var tail := [LineIf(url.Some? && url.value != "", "URL: " + (if url.Some? then url.value else "")),
                 LineIf(totalBytes > 0, "Progress: " + percent(if totalBytes > 0 then (bytesDownloaded as real / totalBytes as real) * 100.0 else 0.0) + "%"),
                 LineIf(cause.Some?, "Error: " + (if cause.Some? then CauseLine(cause.value) else ""))];
    AppendAllShape(first, tail);
    PresentEmpty(tail);
    assert Present(tail) == [] <==> tail[0].None? && tail[1].None? && tail[2].None?;
    AppError(message, Download, Error,
             DownloadActions,
             AppendAll(first, tail), true, None)
  }

  /** NetworkError suggestions by status: 429, 404 and 500 and above each have
      their own two actions; no status, status 0 and every other status keep
      the three defaults. */
  lemma NetworkActionsByStatus(message: string, cause: Option<Cause>, url: Option<string>, status: Option<int>)
    ensures var a := NetworkError(message, cause, url, status).suggestedActions;
      (status == Some(429) ==> a == RateLimitActions)
      && (status == Some(404) ==> a == MissingResourceActions)
      && (status.Some? && status.value >= 500 ==> a == ServerActions)
      && (status.None? || (status.value != 429 && status.value != 404 && status.value < 500) ==> a == DefaultNetworkActions)
      && (a == DefaultNetworkActions <==> |a| == 3)
  {
  }

  /** The network details list status, URL and cause in that order, each
      line present exactly when its value is. */
  lemma NetworkDetailsLines(cause: Option<Cause>, url: Option<string>, status: Option<int>)
    ensures NetworkDetails(cause, url, status) == JoinPresent([
      LineIf(Truthy(status), "Status: " + (if status.Some? then IntToString(status.value) else "")),
      LineIf(url.Some? && url.value != "", "URL: " + (if url.Some? then url.value else "")),
      LineIf(cause.Some?, if cause.Some? then CauseLine(cause.value) else "")])
  {
    var c := LineIf(cause.Some?, if cause.Some? then CauseLine(cause.value) else "");
    var u := LineIf(url.Some? && url.value != "", "URL: " + (if url.Some? then url.value else ""));
    var s := LineIf(Truthy(status), "Status: " + (if status.Some? then IntToString(status.value) else ""));
    assert NetworkDetails(cause, url, status) == PrependLine(s, PrependLine(u, c));
    PrependThree(s, u, c);
  }

  /** Two prepended lines in front of a third give the layout of all three. */
  lemma PrependThree(s: Option<string>, u: Option<string>, c: Option<string>)
    requires NonEmptyLines([s, u, c])
    ensures PrependLine(s, PrependLine(u, c)) == JoinPresent([s, u, c])
  {
    assert JoinPresent([c]) == c by {
      assert [c][1..] == [];
    }
    assert [u] + [c] == [u, c];
    assert [s] + [u, c] == [s, u, c];
    assert NonEmptyLines([u, c]) by {
      assert [u, c] == [s, u, c][1..];
    }
    PrependJoin(u, [c]);
    PrependJoin(s, [u, c]);
  }

  // ---------------------------------------------------------------------------
  // HTTP status messages

  /** The ten status codes with an own message. */
  const KnownStatuses: seq<int> := [400, 401, 403, 404, 408, 429, 500, 502, 503, 504]

  const Status400Message: string := "The request was invalid. Please check your input."
  const Status401Message: string := "Authentication required. Please check your credentials."
  const Status403Message: string := "Access denied. You don't have permission to access this resource."
  const Status404Message: string := "The requested resource was not found."
  const Status408Message: string := "The request timed out. Please try again."
  const Status429Message: string := "Too many requests. Please wait before trying again."
  const Status500Message: string := "The server encountered an error. Please try again later."
  const Status502Message: string := "The server is temporarily unavailable. Please try again later."
  const Status503Message: string := "The service is temporarily unavailable. Please try again later."
  const Status504Message: string := "The server took too long to respond. Please try again."

  const StatusMessages: map<int, string> := map[
    400 := Status400Message,
    401 := Status401Message,
    403 := Status403Message,
    404 := Status404Message,
    408 := Status408Message,
    429 := Status429Message,
    500 := Status500Message,
    502 := Status502Message,
    503 := Status503Message,
    504 := Status504Message]

  /** `_get_http_error_message` */
  function HttpErrorMessage(status: int): (r: string)
    ensures status in StatusMessages ==> r == StatusMessages[status]
    ensures status !in StatusMessages ==> r == "HTTP error " + IntToString(status) + " occurred."
  {
    if status in StatusMessages then StatusMessages[status] else "HTTP error " + IntToString(status) + " occurred."
  }

  /** Exactly the ten listed codes have a message of their own, and no two
      share one. */
  lemma HttpMessagesTable(status: int)
    ensures status in StatusMessages <==> status in KnownStatuses
    ensures forall a, b :: a in StatusMessages && b in StatusMessages && a != b ==> StatusMessages[a] != StatusMessages[b]
    ensures status !in KnownStatuses ==> StartsWith(HttpErrorMessage(status), "HTTP error ")
  {
    var r := "HTTP error " + IntToString(status) + " occurred.";
    assert r[..11] == "HTTP error ";
  }

  // ---------------------------------------------------------------------------
  // Conversion

  function Lookup(context: Option<map<string, string>>, key: string): Option<string>
  {
    if context.Some? && key in context.value then Some(context.value[key]) else None
  }

  /** The category the conversion gives a non-application exception. */
  function CategoryOf(k: ExceptionKind): ErrorCategory
  {
    if k.Connect? || k.Timeout? || k.HttpStatus? || k.Request? then Network
    else if IsOSErrorKind(k) then FileSystem
    else if k.Value? || k.Type? then Validation
    else Unexpected
  }

  const ConnectMessage: string := "Unable to connect to the server. Please check your internet connection."
  const TimeoutMessage: string := "The request timed out. The server may be slow or unavailable."
  const RequestMessage: string := "A network error occurred. Please check your connection."
  const PermissionMessage: string := "Permission denied. You don't have access to this file or directory."
  const NotFoundMessage: string := "The file or directory was not found."
  const OSMessagePrefix: string := "A file system error occurred: "
  const TypeMessagePrefix: string := "Invalid data type: "
  const UnexpectedMessage: string := "An unexpected error occurred. Please try again."

  /** `_convert_to_app_error` */
  function ConvertToAppError(error: Raised, operation: string, component: string,
                             context: Option<map<string, string>>): (e: AppError)
    ensures error.Application? ==> e == error.error
    ensures error.Foreign? ==> e.category == CategoryOf(error.cause.kind) && e.recoverable
    ensures error.Foreign? ==> (e.severity == Warning <==> error.cause.kind.Value? || error.cause.kind.Type?)
    ensures error.Foreign? && !error.cause.kind.Other? ==> e.suggestedActions != []
    ensures error.Foreign? && error.cause.kind.HttpStatus? ==> e.message == HttpErrorMessage(error.cause.kind.status)
    ensures error.Foreign? && error.cause.kind.Value? ==> e.message == error.cause.text
    ensures error.Foreign? && error.cause.kind.Other? ==>
      e.context == Some(ErrorContext(operation, component, if context.Some? then context.value else map[]))
      && e.technicalDetails == Some(CauseLine(error.cause))
  {
    match error
    case Application(a) => a
    case Foreign(c) =>
      match c.kind
      case Connect =>
        NetworkError(ConnectMessage,
                     Some(c), Lookup(context, "url"), None)
      case Timeout =>
        NetworkError(TimeoutMessage,
                     Some(c), Lookup(context, "url"), None)
      case HttpStatus(status, requestUrl) =>
        NetworkError(HttpErrorMessage(status), Some(c), requestUrl, Some(status))
      case Request =>
        NetworkError(RequestMessage, Some(c), Lookup(context, "url"), None)
      case Permission =>
        FileSystemError(PermissionMessage,
                        Some(c), Lookup(context, "path"))
      case NotFound =>
        FileSystemError(NotFoundMessage, Some(c), Lookup(context, "path"))
      case OS =>
        FileSystemError(OSMessagePrefix + c.text, Some(c), Lookup(context, "path"))
      case Value =>
        ValidationError(c.text, Lookup(context, "field"), Lookup(context, "value"), [])
      case Type =>
        ValidationError(TypeMessagePrefix + c.text, Lookup(context, "field"), None, [])
      case Other =>
        AppError(UnexpectedMessage, Unexpected, Error, [], Some(CauseLine(c)), true,
                 Some(ErrorContext(operation, component, if context.Some? then context.value else map[])))
  }

  /** The order of the tests: network classes first, then the OS errors, then
      value and type errors; an application error keeps its own category. */
  lemma ConvertCategories(c: Cause, operation: string, component: string, context: Option<map<string, string>>)
    ensures var e := ConvertToAppError(Foreign(c), operation, component, context);
      (e.category == Network <==> c.kind.Connect? || c.kind.Timeout? || c.kind.HttpStatus? || c.kind.Request?)
      && (e.category == FileSystem <==> c.kind.Permission? || c.kind.NotFound? || c.kind.OS?)
      && (e.category == Validation <==> c.kind.Value? || c.kind.Type?)
      && (e.category == Unexpected <==> c.kind.Other?)
      && (e.category == Unexpected ==> e.suggestedActions == [])
  {
  }

  // ---------------------------------------------------------------------------
  // User messages

  const SuggestionHeader := "\nSuggested actions:"

  /** The bullet lines, each on a line of its own. */
  function Bullets(actions: seq<string>): string
  {
    if actions == [] then "" else "\n  \U{2022} " + actions[0] + Bullets(actions[1..])
  }

  function BulletLines(actions: seq<string>): (r: seq<string>)
    ensures |r| == |actions|
    ensures forall k :: 0 <= k < |r| ==> r[k] == "  \U{2022} " + actions[k]
  {
    if actions == [] then [] else ["  \U{2022} " + actions[0]] + BulletLines(actions[1..])
  }

  /** Every line after the first, each behind a newline. */
  function LinesAfter(xs: seq<string>): string
  {
    if xs == [] then "" else "\n" + xs[0] + LinesAfter(xs[1..])
  }

  lemma {:induction false} JoinAsLines(m: string, xs: seq<string>)
    ensures Join([m] + xs, "\n") == m + LinesAfter(xs)
    decreases |xs|
  {
    if xs != [] {
      JoinAsLines(xs[0], xs[1..]);
      assert ([m] + xs)[1..] == [xs[0]] + xs[1..] == xs;
    }
  }

  lemma {:induction false} LinesOfBullets(actions: seq<string>)
    ensures LinesAfter(BulletLines(actions)) == Bullets(actions)
  {
    if actions != [] {
      LinesOfBullets(actions[1..]);
      assert BulletLines(actions)[1..] == BulletLines(actions[1..]);
    }
  }

  /** `create_user_message`: the message, then — when suggestions are asked
      for and there are some — a blank line, the header and at most the first
      three actions as bullet lines. */
  function CreateUserMessage(e: UserFriendlyError, includeSuggestions: bool): (r: string)
    ensures !includeSuggestions || e.suggestedActions == [] ==> r == e.message
    ensures includeSuggestions && e.suggestedActions != [] ==>
      r == e.message + "\n" + SuggestionHeader + Bullets(e.suggestedActions[..Min(3, |e.suggestedActions|)])
  {
    if includeSuggestions && e.suggestedActions != [] then
      var shown := e.suggestedActions[..Min(3, |e.suggestedActions|)];
      var parts := [e.message] + ([SuggestionHeader] + BulletLines(shown));
      JoinAsLines(e.message, [SuggestionHeader] + BulletLines(shown));
      LinesOfBullets(shown);
      assert ([SuggestionHeader] + BulletLines(shown))[1..] == BulletLines(shown);
      Join(parts, "\n")
    else
      assert [e.message][1..] == [];
      Join([e.message], "\n")
  }

  // ---------------------------------------------------------------------------
  // History and recovery

  datatype RecoveryState = RecoveryState(
    operation: string, component: string, stateData: map<string, string>, timestamp: real, error: Option<AppError>)

  const MaxHistorySize: nat := 100

  /** The history after one error is recorded: appended, and the oldest
      entry dropped once it is longer than the cap. */
  function Recorded(h: seq<(real, AppError)>, entry: (real, AppError)): (r: seq<(real, AppError)>)
    ensures |h| <= MaxHistorySize ==> |r| == Min(|h| + 1, MaxHistorySize)
    ensures |h| <= MaxHistorySize ==> r == (h + [entry])[|h| + 1 - |r|..]
    ensures r != [] && r[|r| - 1] == entry
  {
    var g := h + [entry];
    if |g| > MaxHistorySize then g[1..] else g
  }

  /** The start index of the Python slice `s[i:]` on a sequence of length `n`. */
  function SliceStart(i: int, n: nat): (r: nat)
    ensures r <= n
  {
    if i < 0 then (if n + i < 0 then 0 else n + i) else Min(i, n)
  }

  /** `get_recent_errors(count)` over a history. */
  function RecentErrors(h: seq<(real, AppError)>, count: int): (r: seq<AppError>)
    ensures |r| <= |h|
  {
    var recent := if h != [] then h[SliceStart(-count, |h|)..] else [];
    seq(|recent|, k requires 0 <= k < |recent| => recent[k].1)
  }

  /** A positive count gives the last `count` entries, oldest first; a count
      of 0 gives the whole history (the slice `[-0:]` starts at 0). */
  lemma RecentErrorsWindow(h: seq<(real, AppError)>, count: int)
    ensures var r := RecentErrors(h, count);
      (count > 0 ==> |r| == Min(count, |h|)
                     && forall k :: 0 <= k < |r| ==> r[k] == h[|h| - |r| + k].1)
      && (count == 0 ==> |r| == |h| && forall k :: 0 <= k < |h| ==> r[k] == h[k].1)
  {
  }

  /** The number of entries of the history in a category. */
  function CategoryCount(h: seq<(real, AppError)>, c: ErrorCategory): (r: nat)
    ensures r <= |h|
    ensures r == 0 <==> forall k :: 0 <= k < |h| ==> h[k].1.category != c
  {
    if h == [] then 0 else CategoryCount(h[..|h| - 1], c) + (if h[|h| - 1].1.category == c then 1 else 0)
  }

  /** The count a category map gives a category, 0 when absent. */
  function CountIn(counts: map<ErrorCategory, int>, c: ErrorCategory): int
  {
    if c in counts then counts[c] else 0
  }

  /** The sum of a category map's counts over the seven categories. */
  function SumCounts(counts: map<ErrorCategory, int>): int
  {
    CountIn(counts, Network) + CountIn(counts, FileSystem) + CountIn(counts, Validation)
    + CountIn(counts, Configuration) + CountIn(counts, Scraping) + CountIn(counts, Download)
    + CountIn(counts, Unexpected)
  }

  function TotalCount(h: seq<(real, AppError)>): int
  {
    CategoryCount(h, Network) + CategoryCount(h, FileSystem) + CategoryCount(h, Validation)
    + CategoryCount(h, Configuration) + CategoryCount(h, Scraping) + CategoryCount(h, Download)
    + CategoryCount(h, Unexpected)
  }

  /** Every history entry is counted in exactly one category, so the counts
      add up to the length of the history. */
  lemma {:induction false} CountsSumToLength(h: seq<(real, AppError)>)
    ensures TotalCount(h) == |h|
  {
    if h != [] {
      CountsSumToLength(h[..|h| - 1]);
    }
  }

  class ErrorHandlingService {
    var recoveryStates: map<string, RecoveryState>
    var errorHistory: seq<(real, AppError)>

    predicate Valid()
      reads this
    {
      |errorHistory| <= MaxHistorySize
    }

    constructor()
      ensures Valid() && recoveryStates == map[] && errorHistory == []
    {
      recoveryStates := map[];
      errorHistory := [];
    }

    /** `handle_error`, with `time.time()` as the parameter `now`. */
    method HandleError(error: Raised, operation: string, component: string,
                       context: Option<map<string, string>>, now: real) returns (u: UserFriendlyError)
      requires Valid()
      modifies this
      ensures Valid()
      ensures var app := ConvertToAppError(error, operation, component, context);
        u == ToUserFriendly(app) && errorHistory == Recorded(old(errorHistory), (now, app))
      ensures recoveryStates == old(recoveryStates)
    {
      var app := ConvertToAppError(error, operation, component, context);
      errorHistory := errorHistory + [(now, app)];
      if |errorHistory| > MaxHistorySize {
        errorHistory := errorHistory[1..];
      }
      u := ToUserFriendly(app);
    }

    method SaveRecoveryState(key: string, operation: string, component: string,
                             stateData: map<string, string>, now: real)
      modifies this
      ensures recoveryStates == old(recoveryStates)[key := RecoveryState(operation, component, stateData, now, None)]
      ensures errorHistory == old(errorHistory)
    {
      recoveryStates := recoveryStates[key := RecoveryState(operation, component, stateData, now, None)];
    }

    method GetRecoveryState(key: string) returns (r: Option<RecoveryState>)
      ensures r.Some? <==> key in recoveryStates
      ensures r.Some? ==> r.value == recoveryStates[key]
    {
      if key in recoveryStates {
        r := Some(recoveryStates[key]);
      } else {
        r := None;
      }
    }

    method ClearRecoveryState(key: string) returns (cleared: bool)
      modifies this
      ensures cleared <==> key in old(recoveryStates)
      ensures recoveryStates == old(recoveryStates) - {key}
      ensures errorHistory == old(errorHistory)
    {
      if key in recoveryStates {
        recoveryStates := recoveryStates - {key};
        cleared := true;
      } else {
        cleared := false;
      }
    }

    method GetRecentErrors(count: int) returns (r: seq<AppError>)
      ensures r == RecentErrors(errorHistory, count)
    {
      r := RecentErrors(errorHistory, count);
    }

    /** `get_error_count_by_category`: a category appears in the map exactly
        when some entry has it, with that many entries, and the counts add up
        to the length of the history. */
    method GetErrorCountByCategory() returns (counts: map<ErrorCategory, int>)
      ensures forall c :: c in counts <==> CategoryCount(errorHistory, c) > 0
      ensures forall c :: c in counts ==> counts[c] == CategoryCount(errorHistory, c)
      ensures SumCounts(counts) == |errorHistory|
    {
      counts := map[];
      for i := 0 to |errorHistory|
        invariant forall c :: c in counts <==> CategoryCount(errorHistory[..i], c) > 0
        invariant forall c :: c in counts ==> counts[c] == CategoryCount(errorHistory[..i], c)
      {
        assert errorHistory[..i + 1][..i] == errorHistory[..i];
        var c := errorHistory[i].1.category;
        counts := counts[c := if c in counts then counts[c] + 1 else 1];
      }
      assert errorHistory[..|errorHistory|] == errorHistory;
      CountsSumToLength(errorHistory);
    }
  }
}
