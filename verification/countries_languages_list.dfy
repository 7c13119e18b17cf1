/** The countries/languages list screen: the route's `type` picks the list,
    the whole list is fetched once and paged on the client ten rows at a time. */
module CountriesLanguagesList {
  import opened Values
  import opened Http
  import opened Items
  import opened Text
  import opened Pagination
  import CountriesLanguagesService

  const ItemsPerPage: nat := 10

  datatype Screen = Screen(
    contentType: string,
    displayName: string,
    allItems: seq<Item>,
    items: seq<Item>,
    isLoading: bool,
    error: Option<string>,
    currentPage: int,
    totalPages: nat)

  /** The screen before the route is read. */
  function Initial(): (s: Screen)
    ensures s.isLoading && s.currentPage == 1 && s.allItems == [] && s.error == None
  {
    Screen("", "", [], [], true, None, 1, 0)
  }

  function DisplayNameOf(contentType: string): (d: string)
    ensures contentType == "countries" ==> d == "Countries"
    ensures contentType != "countries" ==> d == "Languages"
  {
    if contentType == "countries" then "Countries" else "Languages"
  }

  /** The paging fields agree with the list: the page count is the ceiling,
      the current page is inside `1..max(1, totalPages)` and `items` is that page. */
  ghost predicate Paged(s: Screen) {
    s.totalPages == CeilDiv(|s.allItems|, ItemsPerPage)
    && 1 <= s.currentPage <= Max(1, s.totalPages)
    && s.items == PageOf(s.allItems, s.currentPage, ItemsPerPage)
  }

  /** `updatePagination`. */
  function UpdatePagination(s: Screen): (r: Screen)
    requires s.currentPage >= 1
    ensures Paged(r)
    ensures r.currentPage == (if s.currentPage <= r.totalPages then s.currentPage else Max(1, r.totalPages))
    ensures r.(items := s.items, currentPage := s.currentPage, totalPages := s.totalPages) == s
  {
    var total := CeilDiv(|s.allItems|, ItemsPerPage);
    var page := ClampPage(s.currentPage, total);
    s.(totalPages := total, currentPage := page,
       items := PageOf(s.allItems, page, ItemsPerPage))
  }

  /** Re-paging an already paged screen changes nothing. */
  lemma UpdatePaginationIdempotent(s: Screen)
    requires s.currentPage >= 1
    ensures UpdatePagination(UpdatePagination(s)) == UpdatePagination(s)
  {
  }

  /** The visible page is empty only when the whole list is. */
  lemma VisiblePageNonEmpty(s: Screen)
    requires Paged(s)
    ensures s.items == [] <==> s.allItems == []
  {
    if s.allItems != [] {
      PageInRangeNonEmpty(s.allItems, s.currentPage, ItemsPerPage);
    }
  }

  /** `goToPage`: a page inside `1..totalPages` becomes current (the range is
      the stored count, so on a screen that is not paged the clamp may still
      move it); any other request leaves the screen as it is. */
  function GoToPage(s: Screen, page: int): (r: Screen)
    requires s.currentPage >= 1
    ensures Paged(s) && 1 <= page <= s.totalPages ==> r.currentPage == page
    ensures !(1 <= page <= s.totalPages) ==> r == s
    ensures 1 <= page <= s.totalPages ==> Paged(r) && r.allItems == s.allItems
  {
    if 1 <= page <= s.totalPages then UpdatePagination(s.(currentPage := page)) else s
  }

  /** `loadItems`: the request, and the screen while it is pending. */
  function LoadStart(s: Screen, apiUrl: string): (r: (Screen, Call<ItemData>))
    ensures r.0 == s.(isLoading := true, error := None)
    ensures r.1 == CountriesLanguagesService.ListCall(apiUrl, CountriesLanguagesService.KindOfType(s.contentType))
  {
    (s.(isLoading := true, error := None),
     CountriesLanguagesService.ListCall(apiUrl, CountriesLanguagesService.KindOfType(s.contentType)))
  }

  /** `ngOnInit`: read `type` from the route (`''` when missing) and load. */
  function Open(s: Screen, apiUrl: string, typeParam: Option<string>): (r: (Screen, Call<ItemData>))
    ensures r.0.contentType == StrOr(typeParam, "")
    ensures r.0.displayName == DisplayNameOf(r.0.contentType)
    ensures r.0.isLoading && r.0.error == None
    ensures r.0 == s.(contentType := r.0.contentType, displayName := r.0.displayName, isLoading := true, error := None)
    ensures r.1 == CountriesLanguagesService.ListCall(apiUrl, CountriesLanguagesService.KindOfType(StrOr(typeParam, "")))
  {
    var t := StrOr(typeParam, "");
    LoadStart(s.(contentType := t, displayName := DisplayNameOf(t)), apiUrl)
  }

  /** `loadItems`: the list replaces `allItems` and is paged; a failure keeps
      the old rows and reports `Failed to load <name> items`. */
  function LoadFinish(s: Screen, outcome: Outcome<seq<Item>>): (r: Screen)
    requires s.currentPage >= 1
    ensures !r.isLoading
    ensures outcome.Next? ==> Paged(r) && r.allItems == outcome.value && r.error == s.error
    ensures outcome.Next? ==>
      r.currentPage == (if s.currentPage <= r.totalPages then s.currentPage else Max(1, r.totalPages))
    ensures outcome.Next? ==>
      r.(allItems := s.allItems, items := s.items, currentPage := s.currentPage,
         totalPages := s.totalPages, isLoading := s.isLoading) == s
    ensures outcome.Error? ==>
      r == s.(isLoading := false, error := Some("Failed to load " + s.displayName + " items"))
  {
    match outcome
    case Next(items) => UpdatePagination(s.(allItems := items)).(isLoading := false)
    case Error(_) => s.(isLoading := false, error := Some("Failed to load " + s.displayName + " items"))
  }

  /** `onDelete`: nothing is sent unless the user confirms; the id is `item.id || ''`. */
  function DeleteStart(s: Screen, apiUrl: string, item: Item, confirmed: bool): (c: Option<Call<ItemData>>)
    ensures c.Some? <==> confirmed
    ensures confirmed ==>
      c.value == CountriesLanguagesService.DeleteCall(apiUrl, CountriesLanguagesService.KindOfType(s.contentType), StrOr(item.id, ""))
  {
    if confirmed then
      Some(CountriesLanguagesService.DeleteCall(apiUrl, CountriesLanguagesService.KindOfType(s.contentType), StrOr(item.id, "")))
    else None
  }

  /** `onDelete`, as written: any delivered reply removes every row with the
      item's `id`, whatever the `success` flag it carries. */
  function DeleteFinish(s: Screen, item: Item, outcome: Outcome<bool>): (r: Screen)
    requires s.currentPage >= 1
    ensures outcome.Next? ==> Paged(r) && r.allItems == WithoutId(s.allItems, item.id)
    ensures outcome.Next? ==>
      r.currentPage == (if s.currentPage <= r.totalPages then s.currentPage else Max(1, r.totalPages))
    ensures outcome.Next? ==>
      r.(allItems := s.allItems, items := s.items, currentPage := s.currentPage, totalPages := s.totalPages) == s
    ensures outcome.Error? ==>
      r == s.(error := Some("Failed to delete " + s.displayName + " item"))
  {
    match outcome
    case Next(_) => UpdatePagination(s.(allItems := WithoutId(s.allItems, item.id)))
    case Error(_) => s.(error := Some("Failed to delete " + s.displayName + " item"))
  }

  /** A reply whose `success` is false still removes the row. */
  lemma RejectedDeleteRemovesRow(s: Screen, item: Item)
    requires s.currentPage >= 1
    requires item in s.allItems
    ensures item !in DeleteFinish(s, item, Next(false)).allItems
  {
  }

  /** `onDelete` with the flag honoured: rows are removed only when the
      backend reports success; a rejected delete keeps the rows and reports
      the same error as a failed request. */
  function DeleteFinishChecked(s: Screen, item: Item, outcome: Outcome<bool>): (r: Screen)
    requires s.currentPage >= 1
    ensures outcome == Next(true) ==> r == DeleteFinish(s, item, outcome)
    ensures outcome == Next(false) ==> r == s.(error := Some("Failed to delete " + s.displayName + " item"))
    ensures outcome.Error? ==> r == DeleteFinish(s, item, outcome)
  {
    match outcome
    case Next(ok) =>
      if ok then DeleteFinish(s, item, outcome)
      else s.(error := Some("Failed to delete " + s.displayName + " item"))
    case Error(_) => DeleteFinish(s, item, outcome)
  }

  /** With the flag honoured, a row disappears only after a confirmed success. */
  lemma CheckedDeleteKeepsRejectedRow(s: Screen, item: Item, outcome: Outcome<bool>)
    requires s.currentPage >= 1
    requires item in s.allItems
    ensures item !in DeleteFinishChecked(s, item, outcome).allItems <==> outcome == Next(true)
    ensures forall x :: x in s.allItems && x.id != item.id ==> x in DeleteFinishChecked(s, item, outcome).allItems
  {
  }

  /** Removing the only row of the last page moves the screen back one page. */
  lemma DeletingLastRowOfLastPageStepsBack(s: Screen, item: Item)
    requires Paged(s)
    requires s.currentPage > 1 && s.currentPage == s.totalPages
    requires s.items == [item]
    requires forall i :: 0 <= i < |s.allItems| - 1 ==> s.allItems[i].id != item.id
    requires s.allItems[|s.allItems| - 1] == item
    ensures DeleteFinish(s, item, Next(true)).currentPage == s.currentPage - 1
  {
    var n := |s.allItems|;
    assert n == (s.currentPage - 1) * ItemsPerPage + 1;
    assert s.allItems == s.allItems[..n - 1] + [item];
    WithoutAbsentId(s.allItems[..n - 1], item.id);
    assert WithoutId(s.allItems, item.id) == s.allItems[..n - 1] by {
      WithoutIdAppend(s.allItems[..n - 1], item);
    }
    var m := s.currentPage - 1;
    assert CeilDiv(n - 1, ItemsPerPage) == m by {
      CeilDivExact(m, ItemsPerPage);
    }
  }

  /** Filtering a list ending in the item drops exactly that last element. */
  lemma {:induction false} WithoutIdAppend(a: seq<Item>, item: Item)
    requires forall i :: 0 <= i < |a| ==> a[i].id != item.id
    ensures WithoutId(a + [item], item.id) == WithoutId(a, item.id)
  {
    if |a| > 0 {
      assert (a + [item])[1..] == a[1..] + [item];
      WithoutIdAppend(a[1..], item);
    } else {
      assert [item][1..] == [];
    }
  }

  /** `m` full pages need exactly `m` pages. */
  lemma {:induction false} CeilDivExact(m: nat, d: nat)
    requires d > 0
    ensures CeilDiv(m * d, d) == m
  {
    if m > 1 {
      assert m * d - d == (m - 1) * d;
      CeilDivExact(m - 1, d);
    }
  }

  /** `getItemRoute`. */
  function ItemRoute(s: Screen, item: Item): (r: seq<string>)
    ensures |r| == 4 && r[0] == "/countries-languages" && r[2] == "edit"
    ensures r[1] == s.contentType && r[3] == StrOr(item.id, "")
  {
    ["/countries-languages", s.contentType, "edit", StrOr(item.id, "")]
  }

  /** The first row number `paginationInfo` shows. */
  function InfoStart(s: Screen): int {
    (s.currentPage - 1) * ItemsPerPage + 1
  }

  /** The last row number `paginationInfo` shows. */
  function InfoEnd(s: Screen): int {
    Min(s.currentPage * ItemsPerPage, |s.allItems|)
  }

  /** `paginationInfo`: `${start}-${end} of ${total}`. */
  function PaginationInfo(s: Screen): (r: string)
    ensures r == IntToString(InfoStart(s)) + "-" + IntToString(InfoEnd(s)) + " of " + NatToString(|s.allItems|)
  {
    IntToString(InfoStart(s)) + "-" + IntToString(InfoEnd(s)) + " of " + NatToString(|s.allItems|)
  }

  /** On a paged, non-empty screen the range in `paginationInfo` names exactly
      the rows shown: it starts at the first visible row and spans `|items|`. */
  lemma InfoNamesVisibleRows(s: Screen)
    requires Paged(s) && s.allItems != []
    ensures 1 <= InfoStart(s) <= InfoEnd(s) <= |s.allItems|
    ensures InfoEnd(s) - InfoStart(s) + 1 == |s.items|
    ensures s.items == s.allItems[InfoStart(s) - 1..InfoEnd(s)]
  {
    PageInRangeNonEmpty(s.allItems, s.currentPage, ItemsPerPage);
  }
}
