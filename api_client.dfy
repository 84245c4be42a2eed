/**
 * `APIClient` (PokemonApp/Core/Networking/APIClient.swift): classifies what
 * `URLSession.data(for:)` delivered into a result or an `APIError`.
 * The session itself is outside the model; its outcome is the input.
 */
module ApiClient {
  import opened Base
  import opened Text
  import opened Errors
  import opened Entities

  /** The response half of what the session delivered. */
  datatype Response = Http(status: int) | NotHttp

  /** What `URLSession.data(for:)` did: delivered a body and response, or threw. */
  datatype Transfer = Delivered(data: Bytes, response: Response) | Threw(error: Error)

  /** `(200..<300).contains(status)`. */
  predicate IsSuccessStatus(status: int) { 200 <= status < 300 }

  /**
   * `perform`, as written: the errors the `do` block throws itself (a
   * non-HTTP response, a bad status) are caught by its own catch-all and
   * wrapped once more as `transport`.
   */
  function Perform(t: Transfer): (r: Result<(Bytes, int), Error>)
    ensures r.Ok? <==> t.Delivered? && t.response.Http? && IsSuccessStatus(t.response.status)
    ensures r.Ok? ==> r.value == (t.data, t.response.status)
    ensures r.Err? ==> r.error.Api? && (r.error.api.Cancelled? || r.error.api.Transport?)
    ensures r.Err? ==> (r.error == Api(Cancelled) <==> t == Threw(CancellationError))
    ensures t.Threw? && t.error != CancellationError ==> r == Err(Api(Transport(t.error)))
  {
    match t
    case Threw(e) =>
      if e == CancellationError then Err(Api(Cancelled)) else Err(Api(Transport(e)))
    case Delivered(data, response) =>
      match response
      case NotHttp => Err(Api(Transport(Api(ApiDecoding))))
      case Http(status) =>
        if IsSuccessStatus(status) then Ok((data, status))
        else Err(Api(Transport(Api(BadStatus(status)))))
  }

  /**
   * `get`: `perform`'s failures pass through unchanged; a body the decoder
   * rejects becomes `APIError.decoding`. The typed decoder is the parameter
   * `decode`.
   */
  function Get<T>(t: Transfer, decode: Bytes -> Option<T>): (r: Result<T, Error>)
    ensures Perform(t).Err? ==> r == Err(Perform(t).error)
    ensures Perform(t).Ok? ==>
      r == match decode(Perform(t).value.0)
           case Some(v) => Ok(v)
           case None => Err(Api(ApiDecoding))
  {
    match Perform(t)
    case Err(e) => Err(e)
    case Ok((data, _)) =>
      match decode(data)
      case Some(v) => Ok(v)
      case None => Err(Api(ApiDecoding))
  }

  /** `getRaw`: exactly `perform`. */
  function GetRaw(t: Transfer): (r: Result<(Bytes, int), Error>)
    ensures r.Ok? ==> IsSuccessStatus(r.value.1)
  {
    Perform(t)
  }

  /**
   * A non-2xx status never reaches the caller as `badStatus`: it arrives
   * wrapped as `transport(badStatus(code))`, and the user reads the
   * generic network message instead of the status code.
   */
  lemma BadStatusSurfacesAsTransport(data: Bytes, status: int)
    requires !IsSuccessStatus(status)
    ensures Perform(Delivered(data, Http(status))) == Err(Api(Transport(Api(BadStatus(status)))))
    ensures Perform(Delivered(data, Http(status))) != Err(Api(BadStatus(status)))
    ensures Humanize(Perform(Delivered(data, Http(status))).error) == "Network error: " + GenericDescription
  {
  }

  /**
   * The classification `perform` evidently intends: its own `badStatus` and
   * `decoding` errors reach the caller as thrown, and only errors from the
   * session are wrapped.
   */
  function PerformIntended(t: Transfer): (r: Result<(Bytes, int), Error>)
    ensures t.Delivered? && t.response.Http? && !IsSuccessStatus(t.response.status) ==>
      r == Err(Api(BadStatus(t.response.status)))
    ensures t.Delivered? && t.response.NotHttp? ==> r == Err(Api(ApiDecoding))
    ensures t.Threw? || (t.response.Http? && IsSuccessStatus(t.response.status)) ==> r == Perform(t)
  {
    match t
    case Threw(_) => Perform(t)
    case Delivered(_, NotHttp) => Err(Api(ApiDecoding))
    case Delivered(data, Http(status)) =>
      if IsSuccessStatus(status) then Ok((data, status)) else Err(Api(BadStatus(status)))
  }

  /**
   * As written, the user cannot tell one bad status from another: every
   * non-2xx response is humanized to the same text.
   */
  lemma BadStatusesIndistinguishable(data: Bytes, s1: int, s2: int)
    requires !IsSuccessStatus(s1) && !IsSuccessStatus(s2)
    ensures Humanize(Perform(Delivered(data, Http(s1))).error)
         == Humanize(Perform(Delivered(data, Http(s2))).error)
  {
  }

  /**
   * With the intended classification, a bad status is shown with its code,
   * and different codes give different messages.
   */
  lemma {:induction false} IntendedBadStatusMessage(data: Bytes, s1: int, s2: int)
    requires !IsSuccessStatus(s1) && !IsSuccessStatus(s2)
    requires IntMin <= s1 <= IntMax && IntMin <= s2 <= IntMax
    ensures Humanize(PerformIntended(Delivered(data, Http(s1))).error) == "Bad status code: " + Decimal(s1)
    ensures s1 != s2 ==>
      Humanize(PerformIntended(Delivered(data, Http(s1))).error)
        != Humanize(PerformIntended(Delivered(data, Http(s2))).error)
  {
    if Description(BadStatus(s1)) == Description(BadStatus(s2)) {
      DescriptionDeterminesKind(BadStatus(s1), BadStatus(s2));
    }
  }

  /**
   * `humanize` checks `APIError` before `URLError`, and `perform` wraps
   * every session error: so an offline failure fetched through the client
   * reads "Network error: " and Foundation's text, never
   * "No Internet connection".
   */
  lemma {:induction false} OfflineThroughClient(text: string)
    ensures Perform(Threw(UrlError(NotConnectedToInternet, text))) == Err(Api(Transport(UrlError(NotConnectedToInternet, text))))
    ensures Humanize(Perform(Threw(UrlError(NotConnectedToInternet, text))).error) == "Network error: " + text
    ensures Humanize(Perform(Threw(UrlError(NotConnectedToInternet, text))).error)
         != Humanize(UrlError(NotConnectedToInternet, text))
  {
    var m := "Network error: " + text;
    assert Humanize(UrlError(NotConnectedToInternet, text)) == "No Internet connection";
    assert m[1] == 'e' != "No Internet connection"[1];
  }
}
