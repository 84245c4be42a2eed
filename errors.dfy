/**
 * The error kinds the app distinguishes (PokemonApp/Core/Utilities/Errors.swift):
 * the app's own `APIError`, `ErrorHumanizer.humanize` and `Error.humanized`.
 *
 * Swift's `Error` is an open existential; the model closes it into the kinds
 * `humanize` tests for, plus the one other error the core throws,
 * `PhotosAccessError.denied`. The kinds are disjoint, so the "first match
 * wins" order of `humanize` becomes a case split.
 */
module Errors {
  import opened Base
  import opened Text

  datatype Error =
    | CancellationError                           // Swift's `CancellationError`
    | Api(api: ApiError)                          // the app's `APIError`
    | DecodingError(failure: DecodingFailure)     // `JSONDecoder`'s `DecodingError`
    | UrlError(urlCode: UrlCode, text: string)    // `URLError`, with its localized text
    // Any other error, bridged to `NSError`. An `NSError` in the URL domain
    // already casts to `URLError`, so this case in the URL domain stands only
    // for an error of some other type whose bridged domain is the URL domain.
    | NsError(domain: string, code: int, text: string)
    | PhotosAccessDenied                          // `PhotosAccessError.denied`

  /** `APIError`. */
  datatype ApiError =
    | BadStatus(status: int)
    | ApiDecoding
    | Transport(cause: Error)
    | Cancelled

  /** `DecodingError.Context`. */
  datatype Context = Context(codingPath: seq<string>, debugDescription: string)

  /** The cases of `DecodingError`. */
  datatype DecodingFailure =
    | DataCorrupted(context: Context)
    | KeyNotFound(key: string, context: Context)
    | TypeMismatch(context: Context)
    | ValueNotFound(context: Context)

  /** `URLError.Code`: the codes `humanize` names, and every other one. */
  datatype UrlCode =
    | NotConnectedToInternet
    | TimedOut
    | CannotFindHost
    | CannotConnectToHost
    | NetworkConnectionLost
    | BadServerResponse
    | OtherCode(raw: int)

  /** The value of Foundation's `NSURLErrorDomain`. */
  const UrlErrorDomain: string := "NSURLErrorDomain"

  /**
   * The text Foundation gives an error that supplies no localized
   * description of its own.
   */
  const GenericDescription: string := "The operation couldn’t be completed."

  /** `error.localizedDescription`. */
  function LocalizedDescription(e: Error): string
  {
    match e
    case UrlError(_, text) => text
    case NsError(_, _, text) => text
    case PhotosAccessDenied => "Photos permission denied"
    case _ => GenericDescription
  }

  /** `APIError.description`. */
  function Description(a: ApiError): string
  {
    match a
    case BadStatus(code) => "Bad status code: " + Decimal(code)
    case ApiDecoding => "Decoding error"
    case Transport(cause) => "Network error: " + LocalizedDescription(cause)
    case Cancelled => "Request cancelled"
  }

  /** A coding path rendered the way `humanize` prints it. */
  function PathText(context: Context): string
  {
    Join(context.codingPath, ".")
  }

  function DecodingMessage(f: DecodingFailure): string
  {
    match f
    case DataCorrupted(ctx) =>
      "Decoding failed: " + ctx.debugDescription + " at " + PathText(ctx)
    case KeyNotFound(key, ctx) =>
      "Missing key '" + key + "' at " + PathText(ctx)
    case TypeMismatch(ctx) =>
      "Type mismatch at " + PathText(ctx) + ": " + ctx.debugDescription
    case ValueNotFound(ctx) =>
      "Value not found at " + PathText(ctx) + ": " + ctx.debugDescription
  }

  function UrlMessage(code: UrlCode, text: string): string
  {
    match code
    case NotConnectedToInternet => "No Internet connection"
    case TimedOut => "The request timed out"
    case CannotFindHost => "Cannot connect to server"
    case CannotConnectToHost => "Cannot connect to server"
    case NetworkConnectionLost => "Network connection lost"
    case BadServerResponse => "Server returned bad response"
    case OtherCode(_) => text
  }

  /**
   * `ErrorHumanizer.humanize`, and so also `error.humanized`. Precedence:
   * cancellation, `APIError`, `DecodingError`, `URLError`, an `NSError` in
   * the URL domain, and finally the localized description.
   */
  function Humanize(e: Error): string
  {
    match e
    case CancellationError => "Operation was cancelled"
    case Api(a) => Description(a)
    case DecodingError(f) => DecodingMessage(f)
    case UrlError(code, text) => UrlMessage(code, text)
    case NsError(domain, code, text) =>
      if domain == UrlErrorDomain then "Network error (" + Decimal(code) + "): " + text
      else LocalizedDescription(e)
    case PhotosAccessDenied => LocalizedDescription(e)
  }

  /** The errors whose humanized text is Foundation's text, passed through. */
  predicate PassesTextThrough(e: Error)
  {
    (e.UrlError? && e.urlCode.OtherCode?) || (e.NsError? && e.domain != UrlErrorDomain)
  }

  /**
   * Every branch of `humanize` that builds its own message gives a
   * non-empty one; only text passed through from Foundation can be empty.
   */
  lemma HumanizeNonEmpty(e: Error)
    ensures Humanize(e) == "" ==> PassesTextThrough(e) && LocalizedDescription(e) == ""
  {
  }

  /** A status code is recovered from its "Bad status code" message. */
  lemma {:induction false} BadStatusMessageParses(code: int)
    requires IntMin <= code <= IntMax
    ensures var m := Description(BadStatus(code));
      HasPrefix(m, "Bad status code: ") && ParseInt(m[|"Bad status code: "|..]) == Some(code)
  {
    var m := Description(BadStatus(code));
    assert m[|"Bad status code: "|..] == Decimal(code);
    ParseDecimal(code);
  }

  /**
   * `APIError.description` tells the kinds apart, and tells status codes
   * apart: equal descriptions mean the same case, and the same code for
   * `badStatus`.
   */
  lemma {:induction false} DescriptionDeterminesKind(a: ApiError, b: ApiError)
    requires a.BadStatus? ==> IntMin <= a.status <= IntMax
    requires b.BadStatus? ==> IntMin <= b.status <= IntMax
    requires Description(a) == Description(b)
    ensures a.BadStatus? == b.BadStatus? && a.ApiDecoding? == b.ApiDecoding?
    ensures a.Transport? == b.Transport? && a.Cancelled? == b.Cancelled?
    ensures a.BadStatus? ==> a == b
  {
    var m := Description(a);
    assert Description(b) == m;
    // Each kind's message opens with a different fixed character string.
    assert a.BadStatus? ==> m[..5] == "Bad s";
    assert a.ApiDecoding? ==> m[..5] == "Decod";
    assert a.Transport? ==> m[..5] == "Netwo";
    assert a.Cancelled? ==> m[..5] == "Reque";
    assert b.BadStatus? ==> m[..5] == "Bad s";
    assert b.ApiDecoding? ==> m[..5] == "Decod";
    assert b.Transport? ==> m[..5] == "Netwo";
    assert b.Cancelled? ==> m[..5] == "Reque";
    if a.BadStatus? && b.BadStatus? {
      BadStatusMessageParses(a.status);
      BadStatusMessageParses(b.status);
    }
  }

  /**
   * The fixed texts of `humanize`: cancellation, an `APIError` (its
   * description), the named `URLError` codes, and a URL-domain `NSError`.
   */
  lemma HumanizeTexts(a: ApiError, text: string, code: int)
    ensures Humanize(CancellationError) == "Operation was cancelled"
    ensures Humanize(Api(a)) == Description(a)
    ensures Humanize(UrlError(NotConnectedToInternet, text)) == "No Internet connection"
    ensures Humanize(UrlError(TimedOut, text)) == "The request timed out"
    ensures Humanize(UrlError(CannotFindHost, text)) == Humanize(UrlError(CannotConnectToHost, text))
         == "Cannot connect to server"
    ensures Humanize(UrlError(OtherCode(code), text)) == text
    ensures Humanize(NsError(UrlErrorDomain, code, text)) == "Network error (" + Decimal(code) + "): " + text
  {
  }

  /**
   * A missing key is reported with its coding path joined by dots: an
   * empty path prints nothing, a one-key path prints that key, and each
   * further key adds a dot and itself.
   */
  lemma {:induction false} MissingKeyText(key: string, path: seq<string>, field: string, debug: string)
    ensures Humanize(DecodingError(KeyNotFound(key, Context([], debug)))) == "Missing key '" + key + "' at "
    ensures Humanize(DecodingError(KeyNotFound(key, Context([field], debug))))
         == "Missing key '" + key + "' at " + field
    ensures path != [] ==>
      Humanize(DecodingError(KeyNotFound(key, Context(path + [field], debug))))
      == Humanize(DecodingError(KeyNotFound(key, Context(path, debug)))) + "." + field
  {
    var lead := "Missing key '" + key + "' at ";
    JoinSingle(field, ".");
    if path != [] {
      JoinSnoc(path, field, ".");
      assert lead + (Join(path, ".") + "." + field) == (lead + Join(path, ".")) + "." + field;
    }
  }

  /** A key missing under `sprites.other` names that path. */
  lemma MissingKeyExample(key: string, debug: string)
    ensures Humanize(DecodingError(KeyNotFound(key, Context(["sprites", "other"], debug))))
         == "Missing key '" + key + "' at sprites.other"
  {
    MissingKeyText(key, ["sprites"], "other", debug);
    assert ["sprites"] + ["other"] == ["sprites", "other"];
  }
}
