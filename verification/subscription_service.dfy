/** Subscription plans and their client: every endpoint hangs off
    `${apiUrl}/admin/subscriptions`, and transport failures are turned into
    one readable message before being rethrown. */
module SubscriptionService {
  import opened Values
  import opened Http
  import opened Text

  /** A plan as the backend stores it; every field but `name` may be missing. */
  datatype Subscription = Subscription(
    backendId: Option<string>,
    name: string,
    description: Option<string>,
    price: Option<int>,
    duration: Option<int>,
    features: Option<seq<string>>,
    perks: Option<seq<string>>,
    imageUrl: Option<string>,
    popular: Option<bool>,
    isActive: Option<bool>,
    createdAt: Option<string>,
    updatedAt: Option<string>)

  /** The body of a create or update: a plan without `_id`, `id` and timestamps. */
  datatype SubscriptionData = SubscriptionData(
    name: string,
    description: string,
    price: int,
    duration: int,
    features: seq<string>,
    perks: seq<string>,
    imageUrl: string,
    popular: bool,
    isActive: bool)

  /** The body of a status toggle: exactly `{isActive}`. */
  datatype StatusBody = StatusBody(isActive: bool)

  /** The requests of this client carry one of three bodies. */
  datatype Body = Plan(data: SubscriptionData) | Status(status: StatusBody)

  /** `${environment.apiUrl}/admin/subscriptions`. */
  function Base(apiUrl: string): string {
    AdminUrl(apiUrl, "subscriptions")
  }

  /** `${base}/${id}`. */
  function ItemUrl(apiUrl: string, id: string): (u: string)
    ensures u == apiUrl + "/admin/subscriptions/" + id
  {
    Base(apiUrl) + "/" + id
  }

  function ListCall(apiUrl: string): (c: Call<Body>)
    ensures c == Call(GET, apiUrl + "/admin/subscriptions", None)
  {
    Call(GET, Base(apiUrl), None)
  }

  function OneCall(apiUrl: string, id: string): (c: Call<Body>)
    ensures c == Call(GET, apiUrl + "/admin/subscriptions/" + id, None)
  {
    Call(GET, ItemUrl(apiUrl, id), None)
  }

  function CreateCall(apiUrl: string, data: SubscriptionData): (c: Call<Body>)
    ensures c == Call(POST, apiUrl + "/admin/subscriptions", Some(Plan(data)))
  {
    Call(POST, Base(apiUrl), Some(Plan(data)))
  }

  function UpdateCall(apiUrl: string, id: string, data: SubscriptionData): (c: Call<Body>)
    ensures c == Call(PUT, apiUrl + "/admin/subscriptions/" + id, Some(Plan(data)))
  {
    Call(PUT, ItemUrl(apiUrl, id), Some(Plan(data)))
  }

  /** `toggleSubscriptionStatus`: a PATCH of `{isActive}` to `${base}/${id}/toggle-status`. */
  function ToggleCall(apiUrl: string, id: string, isActive: bool): (c: Call<Body>)
    ensures c == Call(PATCH, apiUrl + "/admin/subscriptions/" + id + "/toggle-status",
                      Some(Status(StatusBody(isActive))))
  {
    Call(PATCH, ItemUrl(apiUrl, id) + "/toggle-status", Some(Status(StatusBody(isActive))))
  }

  function DeleteCall(apiUrl: string, id: string): (c: Call<Body>)
    ensures c == Call(DELETE, apiUrl + "/admin/subscriptions/" + id, None)
  {
    Call(DELETE, ItemUrl(apiUrl, id), None)
  }

  /** Every item request of the client addresses the same resource `${base}/${id}`,
      and the toggle addresses a sub-resource of it. */
  lemma ItemRequestsShareResource(apiUrl: string, id: string, data: SubscriptionData, flag: bool)
    ensures OneCall(apiUrl, id).url == UpdateCall(apiUrl, id, data).url == DeleteCall(apiUrl, id).url
    ensures StartsWith(ToggleCall(apiUrl, id, flag).url, OneCall(apiUrl, id).url + "/")
    ensures StartsWith(OneCall(apiUrl, id).url, ListCall(apiUrl).url + "/")
  {
    var u := OneCall(apiUrl, id).url;
    assert ToggleCall(apiUrl, id, flag).url == (u + "/") + "toggle-status";
    assert (u + "/" + "toggle-status")[..|u + "/"|] == u + "/";
    var b := ListCall(apiUrl).url;
    assert u == (b + "/") + id;
    assert (b + "/" + id)[..|b + "/"|] == b + "/";
  }

  /** What `handleError` ends in: an `Error` carrying a message, or a
      `TypeError` raised inside the handler itself. */
  datatype Handled = Rethrown(message: string) | Crashed

  /** `Error Code: ${status}\nMessage: ${detail}`. */
  function ServerMessage(status: nat, detail: string): string {
    "Error Code: " + NatToString(status) + "\nMessage: " + detail
  }

  /** `handleError`, as written: a client event gives `Error: <message>`, a
      non-zero status reads `error.error.message` (which throws when the
      payload is `null`), and status 0 gives the generic message. */
  function HandleError(e: HttpError): (h: Handled)
    ensures e.payload.ClientEvent? ==> h == Rethrown("Error: " + e.payload.eventMessage)
    ensures !e.payload.ClientEvent? && e.status == 0 ==> h == Rethrown("An unknown error occurred")
    ensures e.payload.Json? && e.status != 0 ==>
      h == Rethrown(ServerMessage(e.status, StrOr(e.payload.message, e.statusText)))
    ensures e.payload.NoPayload? && e.status != 0 ==> h == Crashed
  {
    match e.payload
    case ClientEvent(m) => Rethrown("Error: " + m)
    case Json(m) =>
      if e.status != 0 then Rethrown(ServerMessage(e.status, StrOr(m, e.statusText)))
      else Rethrown("An unknown error occurred")
    case NoPayload =>
      if e.status != 0 then Crashed else Rethrown("An unknown error occurred")
  }

  /** A server error with an empty body makes the handler itself throw, so
      the caller never sees the status code. */
  lemma EmptyBodyCrashesHandler()
    ensures HandleError(HttpError(500, "Internal Server Error", NoPayload)) == Crashed
  {
  }

  /** `handleError` with a missing body read as having no message: the
      status text stands in, as it does for a body without `message`. */
  function HandleErrorFixed(e: HttpError): (h: Handled)
    ensures h.Rethrown?
    ensures e.payload.ClientEvent? ==> h.message == "Error: " + e.payload.eventMessage
    ensures !e.payload.ClientEvent? && e.status == 0 ==> h.message == "An unknown error occurred"
    ensures e.payload.NoPayload? && e.status != 0 ==> h.message == ServerMessage(e.status, e.statusText)
    ensures HandleError(e).Rethrown? ==> h == HandleError(e)
  {
    match e.payload
    case NoPayload =>
      if e.status != 0 then Rethrown(ServerMessage(e.status, e.statusText))
      else Rethrown("An unknown error occurred")
    case _ => HandleError(e)
  }

  /** The corrected handler reports every server error by its status code,
      and different codes give different messages. */
  lemma FixedHandlerNamesStatus(e: HttpError, f: HttpError)
    requires !e.payload.ClientEvent? && !f.payload.ClientEvent?
    requires e.status != 0 && f.status != 0
    requires HandleErrorFixed(e) == HandleErrorFixed(f)
    ensures e.status == f.status
  {
    var me := HandleErrorFixed(e).message;
    var pe := "Error Code: " + NatToString(e.status);
    var pf := "Error Code: " + NatToString(f.status);
    StatusPrefix(e.status, DetailOf(e));
    StatusPrefix(f.status, DetailOf(f));
    DecimalRoundTrip(e.status);
    DecimalRoundTrip(f.status);
    assert pe + "\nMessage: " + DetailOf(e) == me;
    assert pf + "\nMessage: " + DetailOf(f) == me;
    DigitsBeforeNewline(NatToString(e.status), NatToString(f.status),
                        "\nMessage: " + DetailOf(e), "\nMessage: " + DetailOf(f));
  }

  /** The detail the corrected handler puts after `Message: `. */
  function DetailOf(e: HttpError): string {
    match e.payload
    case Json(m) => StrOr(m, e.statusText)
    case _ => e.statusText
  }

  lemma StatusPrefix(status: nat, detail: string)
    ensures ServerMessage(status, detail) == "Error Code: " + (NatToString(status) + ("\nMessage: " + detail))
  {
  }

  /** Two digit strings each followed by a newline-led tail split the same way
      whenever the concatenations agree. */
  lemma DigitsBeforeNewline(a: string, b: string, x: string, y: string)
    requires forall i :: 0 <= i < |a| ==> IsDigit(a[i])
    requires forall i :: 0 <= i < |b| ==> IsDigit(b[i])
    requires |x| > 0 && x[0] == '\n' && |y| > 0 && y[0] == '\n'
    requires "Error Code: " + (a + x) == "Error Code: " + (b + y)
    ensures a == b
  {
    var p := "Error Code: ";
    assert a + x == b + y by {
      assert (p + (a + x))[|p|..] == a + x;
      assert (p + (b + y))[|p|..] == b + y;
    }
    if |a| < |b| {
      CharAfter(a, x);
      CharInside(b, y, |a|);
      assert false;
    } else if |a| > |b| {
      CharAfter(b, y);
      CharInside(a, x, |b|);
      assert false;
    }
    assert a == (a + x)[..|a|];
    assert b == (b + y)[..|b|];
  }

  /** The first character after `a` in `a + x`. */
  lemma CharAfter(a: string, x: string)
    ensures |x| > 0 ==> (a + x)[|a|] == x[0]
  {
  }

  /** A character of `a` read through `a + x`. */
  lemma CharInside(a: string, x: string, i: int)
    ensures 0 <= i < |a| ==> (a + x)[i] == a[i]
  {
  }
}
