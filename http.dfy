/**
 * What crosses the wire between the front end and the REST backend: the
 * requests it sends, the outcome of each call (a response body, or an error
 * that may carry a status and a `{ message }` / `{ errors }` body), the
 * paginated list body `{ data, meta }`, and the two orders in which the forms
 * pick the text to show from an error.
 */
module Http {
  import opened Common

  datatype Verb = Get | Post | Put | Delete

  /** A request as it leaves the browser: verb, URL, headers and JSON body. */
  datatype Request = Request(verb: Verb, url: string, headers: map<string, string>, body: map<string, string>)

  /** One entry of a validation error body: a field and its messages. */
  datatype FieldMessages = FieldMessages(field: string, messages: seq<string>)

  /** `error.response.data`: an optional `message` and optional field `errors`. */
  datatype ErrorBody = ErrorBody(message: Option<string>, errors: Option<seq<FieldMessages>>)

  /** `error.response`: absent for a network failure. */
  datatype ErrorResponse = ErrorResponse(status: int, data: Option<ErrorBody>)

  datatype HttpError = HttpError(response: Option<ErrorResponse>)

  /** The settled result of one asynchronous call. */
  datatype Outcome<T> = Ok(value: T) | Failed(error: HttpError)

  predicate IsUnauthorized(e: HttpError)
  {
    e.response.Some? && e.response.value.status == 401
  }

  // ---------------------------------------------------------------------------
  // Error text selection
  // ---------------------------------------------------------------------------

  /** `Object.values(errors).flat()`: every field's messages, in field order. */
  function Flatten(fields: seq<FieldMessages>): (r: seq<string>)
    ensures forall k :: 0 <= k < |fields| ==> multiset(fields[k].messages) <= multiset(r)
    ensures |r| == MessageCount(fields)
    ensures fields == [] ==> r == []
    ensures |fields| == 1 ==> r == fields[0].messages
  {
    if fields == [] then []
    else
      var rest := Flatten(fields[1..]);
      assert forall k :: 1 <= k < |fields| ==> fields[k] == fields[1..][k - 1];
      fields[0].messages + rest
  }

  /**
   * Flattening keeps field order and, within a field, message order: the
   * flattening of two lists of fields is the two flattenings one after the
   * other. With the one-field case this fixes the whole result.
   */
  lemma {:induction false} FlattenAppend(a: seq<FieldMessages>, b: seq<FieldMessages>)
    ensures Flatten(a + b) == Flatten(a) + Flatten(b)
    decreases |a|
  {
    if a == [] {
      assert a + b == b;
    } else {
      var ab := a + b;
      assert ab[0] == a[0] && ab[1..] == a[1..] + b;
      FlattenAppend(a[1..], b);
      calc {
        Flatten(ab);
        ab[0].messages + Flatten(ab[1..]);
        a[0].messages + (Flatten(a[1..]) + Flatten(b));
        (a[0].messages + Flatten(a[1..])) + Flatten(b);
        Flatten(a) + Flatten(b);
      }
    }
  }

  function MessageCount(fields: seq<FieldMessages>): nat
  {
    if fields == [] then 0 else |fields[0].messages| + MessageCount(fields[1..])
  }

  /** `error.response.data.errors` is present (any object is truthy, even `{}`). */
  predicate HasFieldErrors(e: HttpError)
  {
    e.response.Some? && e.response.value.data.Some? && e.response.value.data.value.errors.Some?
  }

  /** `error.response.data.message` is present and non-empty. */
  predicate HasMessage(e: HttpError)
  {
    e.response.Some? && e.response.value.data.Some? && Truthy(e.response.value.data.value.message)
  }

  /** The field messages joined by single spaces. */
  function FieldErrorText(e: HttpError): string
    requires HasFieldErrors(e)
  {
    Join(Flatten(e.response.value.data.value.errors.value), " ")
  }

  function MessageText(e: HttpError): string
    requires HasMessage(e)
  {
    e.response.value.data.value.message.value
  }

  /** Field errors win over the message; the fallback is used when neither is there. */
  function ErrorsFirst(e: HttpError, fallback: string): (text: string)
    ensures HasFieldErrors(e) ==> text == FieldErrorText(e)
    ensures !HasFieldErrors(e) && HasMessage(e) ==> text == MessageText(e)
    ensures !HasFieldErrors(e) && !HasMessage(e) ==> text == fallback
  {
    if HasFieldErrors(e) then FieldErrorText(e)
    else if HasMessage(e) then MessageText(e)
    else fallback
  }

  /** The message wins over field errors; the fallback is used when neither is there. */
  function MessageFirst(e: HttpError, fallback: string): (text: string)
    ensures HasMessage(e) ==> text == MessageText(e)
    ensures !HasMessage(e) && HasFieldErrors(e) ==> text == FieldErrorText(e)
    ensures !HasMessage(e) && !HasFieldErrors(e) ==> text == fallback
  {
    if HasMessage(e) then MessageText(e)
    else if HasFieldErrors(e) then FieldErrorText(e)
    else fallback
  }

  /** The texts the server sent: its message and its joined field errors, when present. */
  function ServerTexts(e: HttpError): set<string>
  {
    (if HasMessage(e) then {MessageText(e)} else {}) + (if HasFieldErrors(e) then {FieldErrorText(e)} else {})
  }

  /**
   * Both orders show one of the server's texts whenever it sent any, and the
   * fallback exactly when it sent none.
   */
  lemma FallbackOnlyWithoutServerText(e: HttpError, fallback: string)
    ensures HasMessage(e) || HasFieldErrors(e) ==>
              ErrorsFirst(e, fallback) in ServerTexts(e) && MessageFirst(e, fallback) in ServerTexts(e)
    ensures !HasMessage(e) && !HasFieldErrors(e) ==>
              ErrorsFirst(e, fallback) == fallback && MessageFirst(e, fallback) == fallback
  {
  }

  /** The two orders agree except when the server sent both a message and field errors. */
  lemma {:induction false} OrdersDisagreeOnlyWithBoth(e: HttpError, fallback: string)
    ensures ErrorsFirst(e, fallback) != MessageFirst(e, fallback) ==> HasMessage(e) && HasFieldErrors(e)
    ensures HasMessage(e) && HasFieldErrors(e) ==>
              ErrorsFirst(e, fallback) == FieldErrorText(e) && MessageFirst(e, fallback) == MessageText(e)
  {
  }

  // ---------------------------------------------------------------------------
  // Paginated list bodies
  // ---------------------------------------------------------------------------

  /** A listed entity (an intervention, a vehicle): its id and its other fields. */
  datatype Record = Record(id: int, fields: map<string, string>)

  datatype PageMeta = PageMeta(currentPage: int, lastPage: int)

  /** `{ data, meta }` as the list endpoints return it; either part may be missing. */
  datatype PageBody<T> = PageBody(data: Option<seq<T>>, meta: Option<PageMeta>)

  /** The result of fetching one page; the body itself may be absent (falsy). */
  type PageOutcome<T> = Outcome<Option<PageBody<T>>>

  /**
   * How a list screen reads a fetched page: the rows and the meta; the rows
   * but a missing meta (reading `meta.last_page` then throws after the rows
   * were already set); no rows at all; or a failed request.
   */
  datatype PageLoad<T> = Loaded(items: seq<T>, meta: PageMeta) | LoadedWithoutMeta(items: seq<T>) | NoData | LoadFailed(error: HttpError)

  function Classify<T>(o: PageOutcome<T>): (load: PageLoad<T>)
    ensures load.LoadFailed? <==> o.Failed?
    ensures load.NoData? <==> o.Ok? && (o.value.None? || o.value.value.data.None?)
    ensures load.Loaded? ==> Some(load.items) == o.value.value.data && Some(load.meta) == o.value.value.meta
    ensures load.LoadedWithoutMeta? ==> Some(load.items) == o.value.value.data && o.value.value.meta.None?
  {
    match o
    case Failed(e) => LoadFailed(e)
    case Ok(None) => NoData
    case Ok(Some(PageBody(None, _))) => NoData
    case Ok(Some(PageBody(Some(items), Some(meta)))) => Loaded(items, meta)
    case Ok(Some(PageBody(Some(items), None))) => LoadedWithoutMeta(items)
  }
}
