/** The list screen of one content taxonomy (hobbies, religions, ...): the
    route's `type` selects the list, rows can be deleted after confirmation,
    and every row links to its edit screen. */
module ContentList {
  import opened Values
  import opened Http
  import opened Items
  import ContentService

  datatype Screen = Screen(
    contentType: string,
    displayName: string,
    items: seq<Item>,
    isLoading: bool,
    error: Option<string>)

  function Initial(): (s: Screen)
    ensures s.isLoading && s.items == [] && s.error.None?
  {
    Screen("", "", [], true, None)
  }

  /** `loadItems`, first half: the spinner comes on, an earlier error is
      cleared and the list of the current type is requested. */
  function LoadStart(s: Screen, apiUrl: string): (r: (Screen, Call<ItemData>))
    ensures r.0 == s.(isLoading := true, error := None)
    ensures r.1 == ContentService.GetItemsCall(apiUrl, s.contentType)
  {
    (s.(isLoading := true, error := None), ContentService.GetItemsCall(apiUrl, s.contentType))
  }

  /** The route's `type` (or `''`) is read, its display name looked up and
      the list loaded. */
  function Open(s: Screen, apiUrl: string, typeParam: Option<string>): (r: (Screen, Call<ItemData>))
    ensures r.0.contentType == StrOr(typeParam, "")
    ensures r.0.displayName == ContentService.DisplayName(StrOr(typeParam, ""))
    ensures r.0.isLoading && r.0.error.None? && r.0.items == s.items
    ensures r.1 == ContentService.GetItemsCall(apiUrl, StrOr(typeParam, ""))
  {
    var t := StrOr(typeParam, "");
    LoadStart(s.(contentType := t, displayName := ContentService.DisplayName(t)), apiUrl)
  }

  /** `Failed to load ${displayName} items`. */
  function LoadFailed(s: Screen): string {
    "Failed to load " + s.displayName + " items"
  }

  /** `loadItems`, second half: the rows are replaced on success; a failure
      keeps the old rows and reports the load error. The spinner goes off
      either way. */
  function LoadFinish(s: Screen, outcome: Outcome<seq<Item>>): (r: Screen)
    ensures !r.isLoading
    ensures outcome.Next? ==> r == s.(items := outcome.value, isLoading := false)
    ensures outcome.Error? ==> r == s.(isLoading := false, error := Some(LoadFailed(s)))
  {
    match outcome
    case Next(items) => s.(items := items, isLoading := false)
    case Error(_) => s.(isLoading := false, error := Some(LoadFailed(s)))
  }

  /** `onDelete`, first half: nothing is sent unless the user confirms; the
      id sent is `item.id || ''`. */
  function DeleteStart(s: Screen, apiUrl: string, item: Item, confirmed: bool): (c: Option<Call<ItemData>>)
    ensures c.Some? <==> confirmed
    ensures confirmed ==> c.value == ContentService.DeleteItemCall(apiUrl, s.contentType, StrOr(item.id, ""))
  {
    if confirmed then Some(ContentService.DeleteItemCall(apiUrl, s.contentType, StrOr(item.id, ""))) else None
  }

  /** `Failed to delete ${displayName} item`. */
  function DeleteFailed(s: Screen): string {
    "Failed to delete " + s.displayName + " item"
  }

  /** `onDelete`, second half, as written: any delivered reply removes every
      row with the item's `id`, even one reporting `success: false`; a
      transport failure keeps the rows and reports the delete error. */
  function DeleteFinish(s: Screen, item: Item, outcome: Outcome<bool>): (r: Screen)
    ensures outcome.Next? ==> r == s.(items := WithoutId(s.items, item.id))
    ensures outcome.Error? ==> r == s.(error := Some(DeleteFailed(s)))
  {
    match outcome
    case Next(_) => s.(items := WithoutId(s.items, item.id))
    case Error(_) => s.(error := Some(DeleteFailed(s)))
  }

  /** A reply whose `success` is false still removes the row from the screen,
      though the backend kept the record. */
  lemma RejectedDeleteRemovesRow(s: Screen, item: Item)
    requires item in s.items
    ensures item !in DeleteFinish(s, item, Next(false)).items
    ensures DeleteFinish(s, item, Next(false)).error == s.error
  {
  }

  /** `onDelete` with the flag honoured: rows go only when the backend reports
      success; a rejected delete reports the delete error and keeps the rows. */
  function DeleteFinishChecked(s: Screen, item: Item, outcome: Outcome<bool>): (r: Screen)
    ensures outcome == Next(true) ==> r == DeleteFinish(s, item, outcome)
    ensures outcome == Next(false) ==> r == s.(error := Some(DeleteFailed(s)))
    ensures outcome.Error? ==> r == DeleteFinish(s, item, outcome)
  {
    match outcome
    case Next(ok) => if ok then DeleteFinish(s, item, outcome) else s.(error := Some(DeleteFailed(s)))
    case Error(_) => DeleteFinish(s, item, outcome)
  }

  /** With the flag honoured, a shown row disappears exactly when the backend
      confirms the delete, and every other row stays. */
  lemma CheckedDeleteRemovesOnlyConfirmed(s: Screen, item: Item, outcome: Outcome<bool>)
    requires item in s.items
    ensures item !in DeleteFinishChecked(s, item, outcome).items <==> outcome == Next(true)
    ensures forall x :: x in s.items && x.id != item.id ==> x in DeleteFinishChecked(s, item, outcome).items
  {
  }

  /** `getItemRoute`: `['/content', type, 'edit', item.id || '']`. */
  function ItemRoute(s: Screen, item: Item): (r: seq<string>)
    ensures |r| == 4 && r[0] == "/content" && r[2] == "edit"
    ensures r[1] == s.contentType && r[3] == StrOr(item.id, "")
  {
    ["/content", s.contentType, "edit", StrOr(item.id, "")]
  }

  /** A row's edit route carries the same id its delete request sends. */
  lemma RouteAndDeleteAgree(s: Screen, apiUrl: string, item: Item)
    ensures DeleteStart(s, apiUrl, item, true).value
         == ContentService.DeleteItemCall(apiUrl, ItemRoute(s, item)[1], ItemRoute(s, item)[3])
  {
  }
}
