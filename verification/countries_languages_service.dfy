/** The dedicated client for the two reference lists a profile draws on:
    countries (the backend's nationalities) and languages (its native
    languages). Each has its own fixed endpoints and error messages. */
module CountriesLanguagesService {
  import opened Values
  import opened Http
  import opened Items
  import ContentService

  datatype Kind = Country | Language

  /** The backend path of each list. */
  function BackendPath(kind: Kind): (p: string)
    ensures p != ""
  {
    match kind
    case Country => "nationality"
    case Language => "native-language"
  }

  /** The list a route's content type selects, on every screen that has
      one: only `countries` means the country list, any other type means
      languages. */
  function KindOfType(contentType: string): (k: Kind)
    ensures k == Country <==> contentType == "countries"
  {
    if contentType == "countries" then Country else Language
  }

  /** The content-type key under which the generic content client reaches the same list. */
  function ContentKey(kind: Kind): string {
    match kind
    case Country => "nationalities"
    case Language => "native-languages"
  }

  /** The key the list screens take from the route: `countries` or `languages`. */
  function RouteKey(kind: Kind): string {
    match kind
    case Country => "countries"
    case Language => "languages"
  }

  function NotFound(kind: Kind): string {
    match kind
    case Country => "Country not found"
    case Language => "Language not found"
  }

  function AddFailed(kind: Kind): string {
    match kind
    case Country => "Failed to add country"
    case Language => "Failed to add language"
  }

  function UpdateFailed(kind: Kind): string {
    match kind
    case Country => "Failed to update country"
    case Language => "Failed to update language"
  }

  /** `getCountries` / `getLanguages`: the request. */
  function ListCall(apiUrl: string, kind: Kind): (c: Call<ItemData>)
    ensures c.verb == GET && c.body == None
    ensures kind == Country ==> c.url == AdminUrl(apiUrl, "get-all-nationalities")
    ensures kind == Language ==> c.url == AdminUrl(apiUrl, "get-all-native-languages")
  {
    match kind
    case Country => Call(GET, AdminUrl(apiUrl, "get-all-nationalities"), None)
    case Language => Call(GET, AdminUrl(apiUrl, "get-all-native-languages"), None)
  }

  /** `getCountry` / `getLanguage`: the request. */
  function OneCall(apiUrl: string, kind: Kind, id: string): (c: Call<ItemData>)
    ensures c.verb == GET && c.body == None
    ensures c.url == AdminItemUrl(apiUrl, "get-" + BackendPath(kind), id)
  {
    match kind
    case Country => Call(GET, AdminItemUrl(apiUrl, "get-nationality", id), None)
    case Language => Call(GET, AdminItemUrl(apiUrl, "get-native-language", id), None)
  }

  /** `addCountry` / `addLanguage`: the record without its client `id`. */
  function AddCall(apiUrl: string, kind: Kind, item: Item): (c: Call<ItemData>)
    ensures c.verb == POST && c.body == Some(StripId(item))
    ensures c.url == AdminUrl(apiUrl, "create-" + BackendPath(kind))
  {
    match kind
    case Country => Call(POST, AdminUrl(apiUrl, "create-nationality"), Some(StripId(item)))
    case Language => Call(POST, AdminUrl(apiUrl, "create-native-language"), Some(StripId(item)))
  }

  /** `updateCountry` / `updateLanguage`: the target comes from `id`, the body
      is the record without its client `id`. */
  function UpdateCall(apiUrl: string, kind: Kind, id: string, item: Item): (c: Call<ItemData>)
    ensures c.verb == PUT && c.body == Some(StripId(item))
    ensures c.url == AdminItemUrl(apiUrl, "update-" + BackendPath(kind), id)
  {
    match kind
    case Country => Call(PUT, AdminItemUrl(apiUrl, "update-nationality", id), Some(StripId(item)))
    case Language => Call(PUT, AdminItemUrl(apiUrl, "update-native-language", id), Some(StripId(item)))
  }

  function DeleteCall(apiUrl: string, kind: Kind, id: string): (c: Call<ItemData>)
    ensures c.verb == DELETE && c.body == None
    ensures c.url == AdminItemUrl(apiUrl, "delete-" + BackendPath(kind), id)
  {
    match kind
    case Country => Call(DELETE, AdminItemUrl(apiUrl, "delete-nationality", id), None)
    case Language => Call(DELETE, AdminItemUrl(apiUrl, "delete-native-language", id), None)
  }

  /** A list read: the records with `id` filled in, `[]` on a business failure. */
  function ListResult(reply: Reply<Envelope<seq<Item>>>): (r: Outcome<seq<Item>>)
    ensures reply.Delivered? ==> r.Next?
    ensures reply.Delivered? && Accepted(reply.body) ==> r.value == CopyIds(reply.body.data.value)
    ensures reply.Delivered? && !Accepted(reply.body) ==> r.value == []
    ensures reply.Failed? ==> r == Error(Transport(reply.error))
  {
    UnwrapList(reply)
  }

  /** A single read: the record, or `Country not found` / `Language not found`. */
  function OneResult(kind: Kind, reply: Reply<Envelope<Item>>): (r: Outcome<Item>)
    ensures r.Next? <==> reply.Delivered? && Accepted(reply.body)
    ensures r.Next? ==> r.value.id == reply.body.data.value.backendId
    ensures reply.Delivered? && !Accepted(reply.body) ==> r == Error(Thrown(NotFound(kind)))
  {
    UnwrapOne(reply, NotFound(kind))
  }

  function AddResult(kind: Kind, reply: Reply<Envelope<Item>>): (r: Outcome<Item>)
    ensures r.Next? <==> reply.Delivered? && Accepted(reply.body)
    ensures reply.Delivered? && !Accepted(reply.body) ==>
      r == Error(Thrown(StrOr(reply.body.message, AddFailed(kind))))
  {
    UnwrapWrite(reply, AddFailed(kind))
  }

  function UpdateResult(kind: Kind, reply: Reply<Envelope<Item>>): (r: Outcome<Item>)
    ensures r.Next? <==> reply.Delivered? && Accepted(reply.body)
    ensures reply.Delivered? && !Accepted(reply.body) ==>
      r == Error(Thrown(StrOr(reply.body.message, UpdateFailed(kind))))
  {
    UnwrapWrite(reply, UpdateFailed(kind))
  }

  /** `deleteCountry` / `deleteLanguage`: exactly the envelope's `success`. */
  function DeleteResult(reply: Reply<Envelope<()>>): (r: Outcome<bool>)
    ensures reply.Delivered? ==> r == Next(reply.body.success)
    ensures reply.Failed? ==> r.Error?
  {
    UnwrapDelete(reply)
  }

  /** The dedicated client and the generic content client issue the same
      requests for the same list: its endpoints are the generic ones for the
      `nationalities` and `native-languages` keys. */
  lemma RequestsAgreeWithContentService(apiUrl: string, kind: Kind, id: string, item: Item)
    ensures ListCall(apiUrl, kind) == ContentService.GetItemsCall(apiUrl, ContentKey(kind))
    ensures OneCall(apiUrl, kind, id) == ContentService.GetItemCall(apiUrl, ContentKey(kind), id)
    ensures AddCall(apiUrl, kind, item) == ContentService.AddItemCall(apiUrl, ContentKey(kind), item)
    ensures UpdateCall(apiUrl, kind, id, item)
      == ContentService.UpdateItemCall(apiUrl, ContentKey(kind), id, item)
    ensures DeleteCall(apiUrl, kind, id) == ContentService.DeleteItemCall(apiUrl, ContentKey(kind), id)
  {
    if kind == Country {
      CountryRequestsAgree(apiUrl, id, item);
    } else {
      LanguageRequestsAgree(apiUrl, id, item);
    }
  }

  lemma CountryRequestsAgree(apiUrl: string, id: string, item: Item)
    ensures ListCall(apiUrl, Country) == ContentService.GetItemsCall(apiUrl, "nationalities")
    ensures OneCall(apiUrl, Country, id) == ContentService.GetItemCall(apiUrl, "nationalities", id)
    ensures AddCall(apiUrl, Country, item) == ContentService.AddItemCall(apiUrl, "nationalities", item)
    ensures UpdateCall(apiUrl, Country, id, item)
      == ContentService.UpdateItemCall(apiUrl, "nationalities", id, item)
    ensures DeleteCall(apiUrl, Country, id) == ContentService.DeleteItemCall(apiUrl, "nationalities", id)
  {
    ContentService.NationalitiesPath();
  }

  lemma LanguageRequestsAgree(apiUrl: string, id: string, item: Item)
    ensures ListCall(apiUrl, Language) == ContentService.GetItemsCall(apiUrl, "native-languages")
    ensures OneCall(apiUrl, Language, id) == ContentService.GetItemCall(apiUrl, "native-languages", id)
    ensures AddCall(apiUrl, Language, item) == ContentService.AddItemCall(apiUrl, "native-languages", item)
    ensures UpdateCall(apiUrl, Language, id, item)
      == ContentService.UpdateItemCall(apiUrl, "native-languages", id, item)
    ensures DeleteCall(apiUrl, Language, id)
      == ContentService.DeleteItemCall(apiUrl, "native-languages", id)
  {
    ContentService.NativeLanguagesPath();
    assert ContentService.ListEndpoint("native-language") == "get-all-native-languages";
  }

  /** The two clients agree on every reply as well, up to the wording of the
      not-found and write-failure messages. */
  lemma RepliesAgreeWithContentService(kind: Kind, one: Reply<Envelope<Item>>)
    ensures OneResult(kind, one).Next? <==> ContentService.GetItemResult(one).Next?
    ensures OneResult(kind, one).Next? ==> OneResult(kind, one) == ContentService.GetItemResult(one)
    ensures AddResult(kind, one).Next? ==> AddResult(kind, one) == ContentService.AddItemResult(one)
    ensures UpdateResult(kind, one).Next? ==> UpdateResult(kind, one) == ContentService.UpdateItemResult(one)
  {
  }
}
