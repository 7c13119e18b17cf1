/** The shapes every backend exchange takes once transport is abstracted:
    a request description, the `{success, data, message}` envelope, a
    transport failure, and what an Observable finally delivers. */
module Http {
  import opened Values

  datatype Verb = GET | POST | PUT | PATCH | DELETE

  /** One request a screen or service issues. */
  datatype Call<B> = Call(verb: Verb, url: string, body: Option<B>)

  /** The uniform response wrapper of the backend. */
  datatype Envelope<T> = Envelope(success: bool, data: Option<T>, message: Option<string>)

  /** The `error` field of an `HttpErrorResponse`: a client-side `ErrorEvent`,
      a parsed JSON body with an optional `message`, or `null`. */
  datatype ErrorPayload = ClientEvent(eventMessage: string) | Json(message: Option<string>) | NoPayload

  datatype HttpError = HttpError(status: nat, statusText: string, payload: ErrorPayload)

  /** The transport-level result of a request: a body, or an HTTP failure. */
  datatype Reply<T> = Delivered(body: T) | Failed(error: HttpError)

  /** Why an Observable ended in its `error` channel. */
  datatype Reason = Transport(error: HttpError) | Thrown(message: string)

  /** What a subscriber finally receives: `next(value)` or `error(reason)`. */
  datatype Outcome<T> = Next(value: T) | Error(reason: Reason)

  /** `${apiUrl}/admin/${endpoint}`, the address of every admin endpoint. */
  function AdminUrl(apiUrl: string, endpoint: string): string {
    apiUrl + "/admin/" + endpoint
  }

  /** `${apiUrl}/admin/${endpoint}/${id}`. */
  function AdminItemUrl(apiUrl: string, endpoint: string, id: string): string {
    AdminUrl(apiUrl, endpoint) + "/" + id
  }
}
