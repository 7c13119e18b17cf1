# Darlingo admin console: the rules behind the screens

This project models the admin console of the Darlingo dating app, an Angular
application. Its screens list, create, edit and delete the app's reference
data:

- content taxonomies such as hobbies, religions and education levels;
- countries and languages;
- subscription plans;
- user accounts.

Nearly everything the console does is an HTTP call. Between the calls sit
small, deterministic rules:

- which endpoint a content type resolves to;
- how a reply envelope `{success, data, message}` is unwrapped, with each
  record's `_id` copied into `id`;
- how a list is paged;
- how plan features travel through a textarea as newline-separated text;
- how the dashboard sums revenue;
- how each screen's flags, errors and routes change as its requests start
  and finish.

The model states these rules as Dafny functions over immutable datatypes and
proves what they promise.

Every reply is an input value. `Http.Reply` is what the transport delivers:
a body or an `HttpError`. `Http.Outcome` is what a subscriber finally
receives: `Next(value)`, or `Error(reason)`, where the reason is either a
transport error or a message thrown by a service's mapping step.

A request is a value too. `Http.Call` holds the verb, the URL and the body.
A screen operation that talks to the backend is split in two:

- a *Start* function returns the new screen state together with the call it
  issues;
- a *Finish* function takes the screen and the outcome and returns the next
  state.

Navigation is recorded as the route the router would be asked for. Browser
storage is one field: the stored token.

JavaScript truthiness is written out in `Values`:

- `s || d` on an optional string is `StrOr`;
- `!!b` on an optional flag is `IsTrue`;
- `b !== undefined ? b : true` is `DefaultTrue`;
- `n || d` on an optional number is `IntOr`.

`Text` models the string operations the code relies on, on `seq<char>`:

- `split` on one character and `join`;
- `trim` over a fixed whitespace set;
- ASCII `toUpperCase`;
- the decimal rendering of numbers.

The modules follow the source files:

- `ContentService`, `CountriesLanguagesService`, `SubscriptionService`,
  `AuthService`, `DashboardService` and `ApiService` are the services;
- `Items` holds the taxonomy records and envelope unwrapping they share;
- `Pagination` and `LineList` hold the paging arithmetic and the newline-list
  codec;
- each screen has its own module: `ContentList`, `CountriesLanguagesList`,
  `CountriesLanguagesOverview`, `EditItem` (both record editors), `Users`,
  `EditUser`, `UserDetails`, `SubscriptionList`, `SubscriptionFormComponent`,
  `SubscriptionFormPage`, `Login`, `Sidebar` and `DashboardHelpers`.

## Model

| member | source | states |
|---|---|---|
| Values.StrOr | src/app/services/content.service.ts:136 | `s \|\| fallback`: a present non-empty string is kept; a missing or empty one gives the fallback |
| Values.DefaultTrue | src/app/pages/subscription-list/subscription-list.ts:55 | an explicit flag is kept, `false` included; only a missing flag becomes `true` |
| Values.IntOr | src/app/services/dashboard.service.ts:41 | `n \|\| fallback`: a missing number and `0` both give the fallback; any other number is kept |
| Text.Split | src/app/pages/dashboard/dashboard.component.ts:378 | `split` on one character always yields at least one piece, and no piece contains the separator |
| Text.SplitJoin | src/app/components/subscription-form/subscription-form.component.ts:180-195 | splitting a join of separator-free pieces gives the pieces back |
| Text.JoinSplit | src/app/components/subscription-form/subscription-form.component.ts:180-195 | joining the pieces of a split with the same separator gives the original string |
| Text.TrimStart | src/app/pages/subscription-form/subscription-form.ts:71 | the result is a suffix of the input; what was removed is whitespace; the result does not start with whitespace |
| Text.TrimEnd | src/app/pages/subscription-form/subscription-form.ts:71 | the result is a prefix of the input; what was removed is whitespace; the result does not end with whitespace |
| Text.TrimEmptyIffBlank | src/app/pages/subscription-form/subscription-form.ts:71 | `line.trim() !== ''` holds exactly when the line has a non-whitespace character |
| Text.Upper | src/app/pages/dashboard/dashboard.component.ts:378 | `toUpperCase` keeps the length, maps each character independently and leaves no lower-case ASCII letter |
| Text.NatToString | src/app/pages/user-details/user-details.component.ts:104 | the rendering is non-empty, all digits, and has no leading zero |
| Text.DecimalRoundTrip | src/app/pages/user-details/user-details.component.ts:104 | the decimal rendering of a whole number reads back as that number |
| Text.IntToString | src/app/pages/user-details/user-details.component.ts:109 | negative numbers get a `-` before the digits of their magnitude |
| Items.StripIdForgetsOnlyId | src/app/services/content.service.ts:124 | two records give the same request body exactly when they differ at most in the client `id`; `_id` is not stripped |
| Items.CopyId | src/app/services/content.service.ts:98-101 | the record gets `id = _id`, and every other field is unchanged |
| Items.CopyIds | src/app/services/content.service.ts:69-72 | same length and order; each record gets `id = _id` with the rest unchanged |
| Items.UnwrapList | src/app/services/content.service.ts:67-75 | an accepted envelope (`success && data`) gives the records with ids copied; any other delivered reply gives `[]`; a transport error passes through |
| Items.UnwrapOne | src/app/services/content.service.ts:96-104 | a value exactly for an accepted envelope, with `id = _id`; a refused envelope throws the not-found message |
| Items.UnwrapWrite | src/app/services/content.service.ts:129-137 | a value exactly for an accepted envelope; a refused one throws the backend message, or the fallback when the message is empty |
| Items.WriteFailureMessageNonEmpty | src/app/services/content.service.ts:136 | a refused write always throws a non-empty message |
| Items.UnwrapDelete | src/app/services/content.service.ts:190-192 | a delivered delete yields exactly the envelope's `success` flag and never throws |
| Items.WithoutId | src/app/pages/content-list/content-list.component.ts:72 | a record stays exactly when its `id` differs from the given one |
| Items.WithoutIdOne | src/app/pages/content-list/content-list.component.ts:72 | a single record is kept exactly when its `id` differs |
| Items.WithoutIdAppend | src/app/pages/content-list/content-list.component.ts:72 | filtering distributes over concatenation, so the kept records keep their order and multiplicity |
| Items.WithoutAbsentId | src/app/pages/content-list/content-list.component.ts:72 | when no record carries the id, the filter keeps the list as it is |
| Items.WithoutIdIdempotent | src/app/pages/content-list/content-list.component.ts:72 | filtering twice by the same id is filtering once |
| Pagination.CeilDiv | src/app/pages/countries-languages-list/countries-languages-list.component.ts:106 | `Math.ceil(n / d)`: the fewest pages of `d` that hold `n` items |
| Pagination.Slice | src/app/pages/countries-languages-list/countries-languages-list.component.ts:112 | `slice(start, end)`: the elements between the bounds, the end clipped to the length; empty when out of range |
| Pagination.PageOf | src/app/pages/countries-languages-list/countries-languages-list.component.ts:110-112 | page `p` is the contiguous run `[(p-1)*size, min(p*size, len))` and never holds more than `size` items |
| Pagination.PagesUpToIsPrefix | src/app/pages/countries-languages-list/countries-languages-list.component.ts:110-112 | the first `n` pages, concatenated, are the first `n*size` items |
| Pagination.PagesCoverAll | src/app/pages/countries-languages-list/countries-languages-list.component.ts:106-112 | the pages `1..totalPages`, concatenated, are the whole list: nothing lost, nothing repeated |
| Pagination.PageInRangeNonEmpty | src/app/pages/countries-languages-list/countries-languages-list.component.ts:106-112 | every page from 1 to `totalPages` holds at least one item |
| Pagination.ClampPage | src/app/pages/countries-languages-list/countries-languages-list.component.ts:107-109 | a page past the end becomes `max(1, totalPages)`; any other page is kept |
| Pagination.ClampInRange | src/app/pages/countries-languages-list/countries-languages-list.component.ts:107-109 | after clamping, `1 <= currentPage <= max(1, totalPages)` |
| ApiService.KeyIndex | src/app/services/api.service.ts:60-77 | the position of a query key, if present; absent means no entry has that key |
| ApiService.SetParam | src/app/services/api.service.ts:71 | `set` leaves exactly one value under the key, changes no other key, and keeps keys distinct |
| ApiService.AppendParam | src/app/services/api.service.ts:68 | `append` adds the value at the end of the key's list and changes no other key |
| ApiService.AppendAll | src/app/services/api.service.ts:66-69 | an array value appends each element in order; an empty array adds nothing, not even the key |
| ApiService.Encode | src/app/services/api.service.ts:60-77 | the encoded query never holds a key twice |
| ApiService.CreateParams | src/app/services/api.service.ts:60-77 | the loop over the object's entries computes exactly the fold `Encode` |
| ApiService.EncodeValues | src/app/services/api.service.ts:63-74 | for each key: `null`/`undefined` contributes nothing, a scalar exactly one value, an array its elements in order |
| ApiService.ValueAtEntry | src/app/services/api.service.ts:63-64 | in an object with distinct keys, looking up an entry's key gives that entry's value |
| ApiService.AbsentKey | src/app/services/api.service.ts:63-64 | a key the object does not have reads as absent |
| ApiService.Request | src/app/services/api.service.ts:27-55 | GET, POST, PUT and DELETE send to `baseUrl + path` with the encoded params, and only POST/PUT carry a body; PATCH yields the `Unsupported request: PATCH` error |
| ApiService.Get | src/app/services/api.service.ts:80-82 | a GET without body, params encoded |
| ApiService.Post | src/app/services/api.service.ts:84-86 | a POST carrying the body, no params |
| ApiService.Put | src/app/services/api.service.ts:88-90 | a PUT carrying the body, no params |
| ApiService.Delete | src/app/services/api.service.ts:96-98 | a DELETE without body, no params |
| ApiService.Patch | src/app/services/api.service.ts:92-94 | as written, `patch` never sends anything |
| ApiService.PatchNeverSends | src/app/services/api.service.ts:43-54 | every `patch`, whatever path or body, ends in `Unsupported request: PATCH` |
| ApiService.RequestFixed | src/app/services/api.service.ts:43-54 | with a PATCH arm added, every verb is sent; PATCH carries its body; the other verbs behave exactly as in `Request` |
| ApiService.PatchFixed | src/app/services/api.service.ts:92-94 | over the fixed dispatch, `patch` sends a PATCH with the body |
| ContentService.Find | src/app/services/content.service.ts:47 | `table[key]`: a found value is the value of an entry with that key; not found means no entry has the key |
| ContentService.FindFirst | src/app/services/content.service.ts:47 | the first entry holding the key decides the lookup |
| ContentService.PathResolution | src/app/services/content.service.ts:31-48 | a listed route key resolves to its table entry; any other key resolves to itself |
| ContentService.SharedCurrentSituationPath | src/app/services/content.service.ts:35-44 | `looking-for` and `current-situations` both resolve to `current-situation` |
| ContentService.InterestsPath | src/app/services/content.service.ts:41 | `interests` resolves to the singular `interest` |
| ContentService.NationalitiesPath | src/app/services/content.service.ts:42 | `nationalities` resolves to `nationality` |
| ContentService.NativeLanguagesPath | src/app/services/content.service.ts:43 | `native-languages` resolves to `native-language` |
| ContentService.ListTableFollowsConvention | src/app/services/content.service.ts:53-64 | every list-table entry is `get-all-<path>s`, except `nationality`, which maps to `get-all-nationalities` |
| ContentService.GetTableFollowsConvention | src/app/services/content.service.ts:82-93 | every get-table entry is `get-<path>`, so the table agrees with its fallback |
| ContentService.CreateTableFollowsConvention | src/app/services/content.service.ts:111-122 | every create-table entry is `create-<path>` |
| ContentService.UpdateTableFollowsConvention | src/app/services/content.service.ts:144-155 | every update-table entry is `update-<path>` |
| ContentService.DeleteTableFollowsConvention | src/app/services/content.service.ts:177-188 | every delete-table entry is `delete-<path>` |
| ContentService.ConventionalLookup | src/app/services/content.service.ts:94 | for a table that follows the convention, lookup with the fallback gives `<verb>-<path>` for every path, listed or not |
| ContentService.ListEndpoint | src/app/services/content.service.ts:53-65 | the list endpoint of any path is `get-all-<path>s`, except `get-all-nationalities` for `nationality` |
| ContentService.GetEndpoint | src/app/services/content.service.ts:82-94 | the get endpoint of any path is `get-<path>` |
| ContentService.CreateEndpoint | src/app/services/content.service.ts:111-123 | the create endpoint of any path is `create-<path>` |
| ContentService.UpdateEndpoint | src/app/services/content.service.ts:144-156 | the update endpoint of any path is `update-<path>` |
| ContentService.DeleteEndpoint | src/app/services/content.service.ts:177-189 | the delete endpoint of any path is `delete-<path>` |
| ContentService.GetItemsCall | src/app/services/content.service.ts:51-66 | `getItems` sends a bodiless GET to `/admin/<list endpoint of the resolved path>` |
| ContentService.GetItemsResult | src/app/services/content.service.ts:67-75 | an accepted list keeps its length and order, with `id = _id` and the other fields unchanged; a refused one is `[]`; a transport failure is an error |
| ContentService.GetItemCall | src/app/services/content.service.ts:80-95 | `getItem` sends a bodiless GET to `/admin/get-<path>/<id>` |
| ContentService.GetItemResult | src/app/services/content.service.ts:96-104 | a value exactly for an accepted envelope, with `id = _id`; otherwise `Item not found` is thrown |
| ContentService.AddItemCall | src/app/services/content.service.ts:109-127 | `addItem` POSTs the record without its client `id` (its `_id` kept) to `/admin/create-<path>` |
| ContentService.AddItemResult | src/app/services/content.service.ts:129-137 | a value exactly for an accepted envelope; otherwise the backend message or `Failed to add item` |
| ContentService.UpdateItemCall | src/app/services/content.service.ts:142-160 | `updateItem` PUTs the record without its `id` to `/admin/update-<path>/<id>`; the target comes from the argument |
| ContentService.UpdateItemResult | src/app/services/content.service.ts:162-170 | a value exactly for an accepted envelope; otherwise the backend message or `Failed to update item` |
| ContentService.DeleteItemCall | src/app/services/content.service.ts:175-190 | `deleteItem` sends a bodiless DELETE to `/admin/delete-<path>/<id>` |
| ContentService.DeleteItemResult | src/app/services/content.service.ts:190-192 | a delivered reply yields exactly its `success` flag |
| ContentService.DisplayName | src/app/services/content.service.ts:196-211 | a listed key gives its display name; any other key is shown as itself |
| ContentService.DisplayNamesCoverPaths | src/app/services/content.service.ts:196-211 | the display table lists the same keys, in the same order, as the path table |
| CountriesLanguagesService.BackendPath | src/app/services/countries-languages.service.ts:33-156 | each list has a non-empty backend path: `nationality` for countries, `native-language` for languages |
| CountriesLanguagesService.ListCall | src/app/services/countries-languages.service.ts:33 | countries are read from `get-all-nationalities` and languages from `get-all-native-languages` |
| CountriesLanguagesService.OneCall | src/app/services/countries-languages.service.ts:47 | a bodiless GET to `/admin/get-<family>/<id>` |
| CountriesLanguagesService.AddCall | src/app/services/countries-languages.service.ts:61-62 | a POST of the record without its client `id` to `/admin/create-<family>` |
| CountriesLanguagesService.UpdateCall | src/app/services/countries-languages.service.ts:76-77 | a PUT of the record without its `id` to `/admin/update-<family>/<id>`; the target comes only from the argument |
| CountriesLanguagesService.DeleteCall | src/app/services/countries-languages.service.ts:91 | a bodiless DELETE to `/admin/delete-<family>/<id>` |
| CountriesLanguagesService.ListResult | src/app/services/countries-languages.service.ts:34-42 | an accepted list with ids copied; a refused one is `[]`; a transport error passes through |
| CountriesLanguagesService.OneResult | src/app/services/countries-languages.service.ts:48-56 | a value exactly for an accepted envelope; otherwise `Country not found` or `Language not found` |
| CountriesLanguagesService.AddResult | src/app/services/countries-languages.service.ts:63-71 | a value exactly for an accepted envelope; otherwise the backend message or `Failed to add country`/`language` |
| CountriesLanguagesService.UpdateResult | src/app/services/countries-languages.service.ts:78-86 | a value exactly for an accepted envelope; otherwise the backend message or `Failed to update country`/`language` |
| CountriesLanguagesService.DeleteResult | src/app/services/countries-languages.service.ts:90-93 | a delivered reply yields exactly its `success` flag |
| CountriesLanguagesService.KindOfType | src/app/pages/countries-languages-list/countries-languages-list.component.ts:64-66 | only the type `countries` selects the country list, every other type languages; the editor applies the same rule at countries-languages-edit.component.ts:75-77 |
| CountriesLanguagesService.RequestsAgreeWithContentService | src/app/services/countries-languages.service.ts:32-159 | each of the five requests equals the generic content client's request for `nationalities` or `native-languages` |
| CountriesLanguagesService.CountryRequestsAgree | src/app/services/countries-languages.service.ts:32-94 | the country requests equal the content client's `nationalities` requests |
| CountriesLanguagesService.LanguageRequestsAgree | src/app/services/countries-languages.service.ts:97-159 | the language requests equal the content client's `native-languages` requests |
| CountriesLanguagesService.RepliesAgreeWithContentService | src/app/services/countries-languages.service.ts:46-88 | single reads and writes succeed on the same replies as the content client's and then yield the same record; only the failure wording differs |
| CountriesLanguagesList.Initial | src/app/pages/countries-languages-list/countries-languages-list.component.ts:34-44 | the screen starts loading, on page 1, with no rows and no error |
| CountriesLanguagesList.DisplayNameOf | src/app/pages/countries-languages-list/countries-languages-list.component.ts:55 | `Countries` for `countries`, `Languages` for anything else |
| CountriesLanguagesList.UpdatePagination | src/app/pages/countries-languages-list/countries-languages-list.component.ts:105-113 | afterwards the page count is the ceiling, the visible rows are the current page, and a page past the end becomes `max(1, totalPages)`; nothing else changes |
| CountriesLanguagesList.UpdatePaginationIdempotent | src/app/pages/countries-languages-list/countries-languages-list.component.ts:105-113 | re-paging a paged screen changes nothing |
| CountriesLanguagesList.VisiblePageNonEmpty | src/app/pages/countries-languages-list/countries-languages-list.component.ts:105-113 | on a paged screen the visible page is empty exactly when the whole list is |
| CountriesLanguagesList.GoToPage | src/app/pages/countries-languages-list/countries-languages-list.component.ts:115-120 | a page in `1..totalPages` becomes current and the screen is re-paged; any other page changes nothing |
| CountriesLanguagesList.LoadStart | src/app/pages/countries-languages-list/countries-languages-list.component.ts:60-66 | the spinner comes on, the error is cleared, and the list of the screen's kind is requested |
| CountriesLanguagesList.Open | src/app/pages/countries-languages-list/countries-languages-list.component.ts:52-58 | the type is the route's `type` or `''`; the display name follows it; the load starts |
| CountriesLanguagesList.LoadFinish | src/app/pages/countries-languages-list/countries-languages-list.component.ts:68-79 | a list replaces all rows and is paged: the current page is kept while still in range, otherwise it becomes `max(1, totalPages)`; type, name and error are kept; a failure sets `Failed to load <name> items`; the spinner goes off either way |
| CountriesLanguagesList.DeleteStart | src/app/pages/countries-languages-list/countries-languages-list.component.ts:82-87 | a delete is sent exactly when the user confirms, with id `item.id \|\| ''` |
| CountriesLanguagesList.DeleteFinish | src/app/pages/countries-languages-list/countries-languages-list.component.ts:88-97 | as written: any delivered reply removes the rows with the item's `id` and re-pages, keeping the current page while in range and otherwise moving to `max(1, totalPages)`, with nothing else changed; a transport failure sets the delete error |
| CountriesLanguagesList.RejectedDeleteRemovesRow | src/app/pages/countries-languages-list/countries-languages-list.component.ts:89-91 | a reply with `success: false` still removes the row |
| CountriesLanguagesList.DeleteFinishChecked | src/app/pages/countries-languages-list/countries-languages-list.component.ts:88-97 | corrected: rows go only on `success: true`; a refused delete keeps them and sets the delete error |
| CountriesLanguagesList.CheckedDeleteKeepsRejectedRow | src/app/pages/countries-languages-list/countries-languages-list.component.ts:88-97 | with the correction, the row disappears exactly on a confirmed success, and rows with other ids always stay |
| CountriesLanguagesList.DeletingLastRowOfLastPageStepsBack | src/app/pages/countries-languages-list/countries-languages-list.component.ts:89-91 | deleting the only row of the last page moves the screen back one page |
| CountriesLanguagesList.CeilDivExact | src/app/pages/countries-languages-list/countries-languages-list.component.ts:106 | `m` full pages need exactly `m` pages |
| CountriesLanguagesList.ItemRoute | src/app/pages/countries-languages-list/countries-languages-list.component.ts:101-103 | the edit route is `['/countries-languages', type, 'edit', item.id \|\| '']` |
| CountriesLanguagesList.PaginationInfo | src/app/pages/countries-languages-list/countries-languages-list.component.ts:122-126 | the text is `<start>-<end> of <total>` |
| CountriesLanguagesList.InfoNamesVisibleRows | src/app/pages/countries-languages-list/countries-languages-list.component.ts:122-126 | on a paged, non-empty screen, `start..end` is exactly the range of the visible rows |
| CountriesLanguagesOverview.InitialCards | src/app/pages/countries-languages/countries-languages.ts:43-46 | two cards, `countries` then `languages`, both with count 0 |
| CountriesLanguagesOverview.Initial | src/app/pages/countries-languages/countries-languages.ts:34-46 | the overview starts loading with no error and two cards |
| CountriesLanguagesOverview.KindOf | src/app/pages/countries-languages/countries-languages.ts:60-62 | a card of type `countries` reads countries; any other reads languages |
| CountriesLanguagesOverview.LoadStart | src/app/pages/countries-languages/countries-languages.ts:54-62 | the spinner comes on, the counter restarts at 0, and one list request per card is issued |
| CountriesLanguagesOverview.Complete | src/app/pages/countries-languages/countries-languages.ts:64-85 | each finished request bumps the counter once; the card shows the list length, or 0 on error; a failure sets `Failed to load <title> count`; the spinner goes off exactly when the counter reaches the card count |
| CountriesLanguagesOverview.LoadingTracksCounter | src/app/pages/countries-languages/countries-languages.ts:81-85 | a load starts consistent, and each completion keeps "loading iff fewer completions than cards" |
| CountriesLanguagesOverview.ErrorPersists | src/app/pages/countries-languages/countries-languages.ts:73 | once set, the error survives every later completion |
| CountriesLanguagesOverview.OrderIndependent | src/app/pages/countries-languages/countries-languages.ts:59-78 | two completions in either order give the same counts, counter, spinner and error presence |
| CountriesLanguagesOverview.BothFinished | src/app/pages/countries-languages/countries-languages.ts:54-85 | after both requests the spinner is off and each count is its list's length or 0; after one it is still on |
| ContentList.Initial | src/app/pages/content-list/content-list.component.ts:30-34 | the screen starts loading with no rows and no error |
| ContentList.LoadStart | src/app/pages/content-list/content-list.component.ts:50-54 | the spinner comes on, the error is cleared, and the list of the screen's type is requested |
| ContentList.Open | src/app/pages/content-list/content-list.component.ts:42-48 | the type is the route's `type` or `''`; the display name comes from the content client's table; the load starts |
| ContentList.LoadFinish | src/app/pages/content-list/content-list.component.ts:54-64 | rows are replaced on success; a failure sets `Failed to load <name> items`; the spinner goes off either way |
| ContentList.DeleteStart | src/app/pages/content-list/content-list.component.ts:67-69 | a delete is sent exactly when the user confirms, with id `item.id \|\| ''` |
| ContentList.DeleteFinish | src/app/pages/content-list/content-list.component.ts:69-78 | as written: any delivered reply removes the rows with the item's `id`; a transport failure sets `Failed to delete <name> item` and keeps the rows |
| ContentList.RejectedDeleteRemovesRow | src/app/pages/content-list/content-list.component.ts:70-73 | a reply with `success: false` still removes the row, and no error is shown |
| ContentList.DeleteFinishChecked | src/app/pages/content-list/content-list.component.ts:69-78 | corrected: rows go only on `success: true`; a refused delete keeps them and sets the delete error |
| ContentList.CheckedDeleteRemovesOnlyConfirmed | src/app/pages/content-list/content-list.component.ts:69-78 | with the correction, the row disappears exactly on a confirmed success, and rows with other ids always stay |
| ContentList.ItemRoute | src/app/pages/content-list/content-list.component.ts:82-84 | the edit route is `['/content', type, 'edit', item.id \|\| '']` |
| ContentList.RouteAndDeleteAgree | src/app/pages/content-list/content-list.component.ts:67-84 | a row's delete request targets the same type and id as its edit route |
| EditItem.Initial | src/app/pages/edit-content/edit-content.ts:35-53 | an editor starts in create mode, idle, with an empty name and no record |
| EditItem.DisplayNameOf | src/app/pages/countries-languages-edit/countries-languages-edit.component.ts:58 | the content editor uses the content client's display names; the country/language editor shows `Countries` exactly for `countries`, else `Languages` |
| EditItem.ListRoute | src/app/pages/edit-content/edit-content.ts:150-152 | the list route is `['/content', type]` or `['/countries-languages', type]` |
| EditItem.Open | src/app/pages/edit-content/edit-content.ts:55-69 | the type is the route's `type` or `''`; edit mode and a load request exactly when the `id` is truthy; otherwise the name is reset to `''` |
| EditItem.Valid | src/app/pages/edit-content/edit-content.ts:51 | the name is required, and a present name is accepted exactly when it has at least 2 characters |
| EditItem.LoadFinish | src/app/pages/edit-content/edit-content.ts:75-88 | a loaded record becomes current and fills the name; a failure sets the load error; the spinner goes off either way |
| EditItem.NameOnly | src/app/pages/edit-content/edit-content.ts:100-102 | a submit sends `{name}` and nothing else |
| EditItem.Submit | src/app/pages/edit-content/edit-content.ts:91-106 | an invalid name sends nothing; a valid one sends an update exactly when editing a record with a truthy `id`, a create otherwise |
| EditItem.SubmitVerb | src/app/pages/edit-content/edit-content.ts:104-106 | the request is a PUT exactly when the screen updates, a POST otherwise |
| EditItem.SubmitFinish | src/app/pages/edit-content/edit-content.ts:108-118 | success returns to the list; failure says `update` or `create` by the edit flag; the busy flag goes off |
| EditItem.SaveErrorFollowsMode | src/app/pages/edit-content/edit-content.ts:104-115 | the save error follows the edit flag, not the verb sent: an edit screen without a loaded record POSTs but reports `update` |
| EditItem.DeleteStart | src/app/pages/edit-content/edit-content.ts:121-130 | a delete is sent exactly when confirmed for a current record with a truthy `id` |
| EditItem.DeleteFinish | src/app/pages/edit-content/edit-content.ts:130-140 | any delivered reply returns to the list; a failure sets the delete error; the busy flag goes off |
| EditItem.DeleteIgnoresFlag | src/app/pages/edit-content/edit-content.ts:131-134 | a refused delete leaves the screen exactly as an accepted one, on its way back to the list |
| EditItem.GoBack | src/app/pages/edit-content/edit-content.ts:150-152 | back to the editor's list route; nothing else changes |
| EditItem.GoBackMatchesSuccessRoute | src/app/pages/edit-content/edit-content.ts:91-152 | going back lands on the route a successful save or delete lands on |
| EditItem.EditorsAgree | src/app/pages/countries-languages-edit/countries-languages-edit.component.ts:71-157 | the country/language editor's four requests equal the content editor's for `nationalities` or `native-languages` |
| Users.Initial | src/app/pages/users/users.component.ts:36-70 | page 1, ten a page, no records and a page count of 0, both filters on their `All` option, well formed |
| Users.PageCount | src/app/pages/users/users.component.ts:52 | the count is the fewest pages of the given size that hold every record: `Math.ceil(total / size)` |
| Users.OptionalParam | src/app/pages/users/users.component.ts:100-102 | a filter value joins the query only when truthy |
| Users.Query | src/app/pages/users/users.component.ts:97-103 | the query object has five distinct keys |
| Users.SearchSentIffNonEmpty | src/app/pages/users/users.component.ts:100 | `search` is sent exactly when the search box is non-empty, with its text |
| Users.StatusRoleSentIffSelected | src/app/pages/users/users.component.ts:97-103 | `status` and `role` are sent exactly when the selected option's value is truthy, and then carry that value |
| Users.PageAndLimitAlwaysSent | src/app/pages/users/users.component.ts:98-99 | the current page and the page size are always sent |
| Users.LoadStart | src/app/pages/users/users.component.ts:94-105 | the spinner comes on and `GET /admin/users` is sent with the encoded query |
| Users.ShowToast | src/app/pages/users/users.component.ts:284-288 | an empty text leaves the toast as it is; any other text replaces it |
| Users.ClearToast | src/app/pages/users/users.component.ts:290-292 | the toast is removed and nothing else changes |
| Users.ClearUndoesShow | src/app/pages/users/users.component.ts:284-292 | clearing a toast just shown returns the screen to its state before, without a toast; a non-empty text is shown as given |
| Users.LoadFinish | src/app/pages/users/users.component.ts:105-119 | rows and count come from `data`, defaulting to `[]` and `0`; the page count is recomputed, with the page size of the moment, only when the count differs; a reply changes nothing else, so the page, page size, filters, search and dialog are kept; a failure shows `Failed to load users`; the spinner goes off |
| Users.SetTotal | src/app/pages/users/users.component.ts:51-52 | setting the total to a different value refreshes the memoised page count from the current page size; setting the same value leaves it as it was |
| Users.CloseAllDropdowns | src/app/pages/users/users.component.ts:176-179 | both dropdowns close and nothing else changes |
| Users.ToggleStatusDropdown | src/app/pages/users/users.component.ts:159-165 | the status dropdown flips; opening it closes the role dropdown; nothing else changes |
| Users.ToggleRoleDropdown | src/app/pages/users/users.component.ts:167-173 | the role dropdown flips; opening it closes the status dropdown; nothing else changes |
| Users.ApplyFilters | src/app/pages/users/users.component.ts:123-126 | back to page 1, then reload |
| Users.ResetFilters | src/app/pages/users/users.component.ts:128-135 | search and both filters cleared, page 1, dropdowns closed, the spinner on and nothing else changed; the reload is the users GET with the reset query |
| Users.ResetQueryHasNoFilters | src/app/pages/users/users.component.ts:128-135 | after a reset, the query carries no search, status or role |
| Users.SetStatusFilter | src/app/pages/users/users.component.ts:137-141 | the filter is selected, page 1, dropdowns closed; the search, the role filter, the page size and the rows are kept, and nothing is reloaded |
| Users.SetRoleFilter | src/app/pages/users/users.component.ts:143-147 | the filter is selected, page 1, dropdowns closed; the search, the status filter, the page size and the rows are kept, and nothing is reloaded |
| Users.ChangePage | src/app/pages/users/users.component.ts:182-187 | a page in `1..totalPages`, as the memoised count holds it, becomes current and its listing is requested; any other page changes nothing |
| Users.ChangeItemsPerPage | src/app/pages/users/users.component.ts:189-193 | the new size and page 1 are requested with nothing else changed; the page count is not refreshed |
| Users.StalePageCountAfterResize | src/app/pages/users/users.component.ts:52 | with 100 records, changing from 10 to 50 a page and reloading the same total keeps a count of 10 pages, so page 3 of what are 2 pages is still requested |
| Users.ChangePageFresh | src/app/pages/users/users.component.ts:182-187 | with the count computed from the current total and page size, a page is requested exactly when some record falls on it |
| Users.PageWithinCount | src/app/pages/users/users.component.ts:52 | a page number lies in `1..ceil(total / size)` exactly when the rows before that page are fewer than the total |
| Users.FreshPageHoldsRecords | src/app/pages/users/users.component.ts:182-187 | with the fresh count, every page that can be requested starts inside the records |
| Users.FilterChangesResetPage | src/app/pages/users/users.component.ts:123-193 | applying, resetting, choosing either filter and changing the page size all return to page 1 |
| Users.PaginationRange | src/app/pages/users/users.component.ts:195-210 | given the memoised page count: consecutive ascending pages, `min(5, totalPages)` of them, all within `1..totalPages`, including the current page whenever it is valid |
| Users.NewStatus | src/app/pages/users/users.component.ts:217 | `active` becomes `inactive`; anything else becomes `active` |
| Users.ToggleTwiceRestores | src/app/pages/users/users.component.ts:217 | toggling an active or inactive user twice restores the status |
| Users.ToggleStatusStart | src/app/pages/users/users.component.ts:213-219 | a request exactly for a user with a truthy `_id`, carrying the new active flag |
| Users.SetStatusOf | src/app/pages/users/users.component.ts:223-227 | rows with the `_id` take the new status; all others are unchanged |
| Users.ToggleStatusFinish | src/app/pages/users/users.component.ts:221-233 | success updates the matching rows and shows `User <status> successfully`; failure only shows the error toast |
| Users.ConfirmDelete | src/app/pages/users/users.component.ts:253-256 | the user is remembered and the dialog opens; nothing else changes |
| Users.ConfirmThenAnswer | src/app/pages/users/users.component.ts:253-281 | confirming a user and answering yes sends `DELETE /admin/users/<_id>` exactly when the `_id` is truthy; answering no sends nothing and only closes the dialog |
| Users.DeleteAnswer | src/app/pages/users/users.component.ts:258-264 | the dialog closes; a DELETE is sent exactly for a confirmed user with a truthy `_id` |
| Users.WithoutUser | src/app/pages/users/users.component.ts:271 | a row stays exactly when its `_id` differs |
| Users.WithoutUserOne | src/app/pages/users/users.component.ts:271 | a single row is kept exactly when its `_id` differs |
| Users.WithoutUserAppend | src/app/pages/users/users.component.ts:271 | filtering distributes over concatenation, so the remaining rows keep their order and multiplicity |
| Users.WithoutAbsentUser | src/app/pages/users/users.component.ts:271 | an `_id` no row carries leaves the list unchanged |
| Users.DeleteFinish | src/app/pages/users/users.component.ts:265-279 | success removes the user's rows, shows the success toast and forgets the user; failure shows the error toast; `deleting` goes off |
| Users.ViewRoute | src/app/pages/users/users.component.ts:237-241 | a route only for a user with a truthy `_id`: `['/users', id]` |
| Users.EditRoute | src/app/pages/users/users.component.ts:243-247 | a route only for a user with a truthy `_id`: `['/users', id, 'edit']` |
| Users.DropdownsStayExclusive | src/app/pages/users/users.component.ts:137-179 | no dropdown transition leaves both dropdowns open |
| Users.LoadingKeepsWellformed | src/app/pages/users/users.component.ts:94-193 | loading, filtering and paging keep a positive page size and at most one open dropdown |
| Users.DeleteRemovesOnlyTarget | src/app/pages/users/users.component.ts:269-279 | a successful delete of a user whose `_id` no other row shares removes exactly that row, the others kept in order; a failed delete keeps every row |
| Users.DialogKeepsWellformed | src/app/pages/users/users.component.ts:253-263 | confirming a delete and answering the dialog keep a positive page size and at most one open dropdown |
| Users.RowUpdatesKeepWellformed | src/app/pages/users/users.component.ts:213-279 | the end of a delete or a status change keeps a positive page size and at most one open dropdown |
| LineList.KeepNonBlank | src/app/pages/subscription-form/subscription-form.ts:65 | keeps exactly the lines with a non-whitespace character |
| LineList.KeepNonBlankOne | src/app/pages/subscription-form/subscription-form.ts:65 | a single line is kept exactly when it is not blank |
| LineList.KeepNonBlankAppend | src/app/pages/subscription-form/subscription-form.ts:65 | filtering distributes over concatenation, so the kept lines keep the order they were typed in |
| LineList.KeepNonBlankIdempotent | src/app/pages/subscription-form/subscription-form.ts:65 | filtering blank lines twice is filtering once |
| LineList.Parse | src/app/components/subscription-form/subscription-form.component.ts:194-195 | every parsed entry is a single non-blank line |
| LineList.ParseField | src/app/components/subscription-form/subscription-form.component.ts:194-195 | a missing or empty text parses to `[]`; any other text is split and filtered |
| LineList.ParseEmpty | src/app/components/subscription-form/subscription-form.component.ts:194 | the empty text parses to `[]`, so the falsy-text guard changes nothing |
| LineList.RenderField | src/app/components/subscription-form/subscription-form.component.ts:180-181 | a missing list renders as `''`; a present one is joined with newlines |
| LineList.ParseRender | src/app/components/subscription-form/subscription-form.component.ts:180-195 | for entries without newlines, parsing the rendering gives the list minus its blank entries; kept entries are not trimmed |
| LineList.RoundTrip | src/app/components/subscription-form/subscription-form.component.ts:180-195 | a list of single non-blank lines survives render-then-parse unchanged |
| LineList.KeepAllNonBlank | src/app/pages/subscription-form/subscription-form.ts:65 | a list with no blank entries is kept whole |
| LineList.ParseIdempotent | src/app/components/subscription-form/subscription-form.component.ts:194-195 | `parse(join(parse(s))) == parse(s)` |
| LineList.CountNonEmptyLines | src/app/pages/subscription-form/subscription-form.ts:70-72 | the count is the number of parsed lines, at most the number of lines |
| LineList.Normalise | src/app/pages/subscription-form/subscription-form.ts:63-66 | the rewritten text parses to the same list as the original |
| LineList.NormaliseIdempotent | src/app/pages/subscription-form/subscription-form.ts:63-66 | rewriting twice is rewriting once |
| LineList.NormalisedCount | src/app/pages/subscription-form/subscription-form.ts:65-67 | the count of the rewritten text is the number of lines kept |
| LineList.FieldRoundTrip | src/app/components/subscription-form/subscription-form.component.ts:180-195 | a missing or clean list survives textarea rendering and the submit parse, a missing list as `[]` |
| SubscriptionFormComponent.InitialForm | src/app/components/subscription-form/subscription-form.component.ts:161-172 | price 0, duration 1, not popular, active; the empty name makes the fresh form invalid |
| SubscriptionFormComponent.Valid | src/app/components/subscription-form/subscription-form.component.ts:162-172 | a missing or empty name, a missing price or a missing duration is refused; an accepted form has a non-zero duration |
| SubscriptionFormComponent.Patch | src/app/components/subscription-form/subscription-form.component.ts:178 | `patchValue` overwrites a control exactly when the patch carries its key |
| SubscriptionFormComponent.Init | src/app/components/subscription-form/subscription-form.component.ts:175-184 | no plan changes nothing; a plan sets the name and the joined lists, and each of description, price, duration, image, `popular` and `isActive` it carries |
| SubscriptionFormComponent.Submit | src/app/components/subscription-form/subscription-form.component.ts:186-202 | a plan is emitted exactly for a valid form: description and image default to `''`, price `>= 0`, duration `>= 1`, the lists parsed, the flags coerced |
| SubscriptionFormComponent.EditRoundTrip | src/app/components/subscription-form/subscription-form.component.ts:175-202 | opening a valid plan with clean lists and saving straight away emits its name, description, lists and flags back |
| SubscriptionFormPage.Initial | src/app/pages/subscription-form/subscription-form.ts:20-43 | the page starts in create mode, idle, with a features count of 0, nothing touched |
| SubscriptionFormPage.Valid | src/app/pages/subscription-form/subscription-form.ts:32-42 | an accepted form has a description of at least 10 characters and an image URL, and the reusable form component accepts it too |
| SubscriptionFormPage.PageValidityIsStricter | src/app/pages/subscription-form/subscription-form.ts:32-42 | every form the editor page accepts, the reusable form component accepts too |
| SubscriptionFormPage.Open | src/app/pages/subscription-form/subscription-form.ts:45-51 | edit mode and a fetch of the plan exactly when the route has a truthy `id` |
| SubscriptionFormPage.SetFeatures | src/app/pages/subscription-form/subscription-form.ts:54-56 | the features count follows the new text, `''` standing for null |
| SubscriptionFormPage.SetPerks | src/app/pages/subscription-form/subscription-form.ts:58-60 | the perks count follows the new text |
| SubscriptionFormPage.FeaturesInput | src/app/pages/subscription-form/subscription-form.ts:63-68 | the box is rewritten with its non-blank lines; the count is the number kept |
| SubscriptionFormPage.FeaturesInputAgreesWithListener | src/app/pages/subscription-form/subscription-form.ts:54-68 | the count the input handler stores equals the one the change listener computes |
| SubscriptionFormPage.Filled | src/app/pages/subscription-form/subscription-form.ts:86-96 | lists joined or `''`, image `''` when missing, popular defaults to false, active to true only when missing |
| SubscriptionFormPage.LoadFinish | src/app/pages/subscription-form/subscription-form.ts:82-105 | an accepted plan fills the form and both counts; a refused one changes nothing; a failure sets the load error; the spinner goes off |
| SubscriptionFormPage.Data | src/app/pages/subscription-form/subscription-form.ts:112-122 | name, description, price, duration and image pass through as validated; both lists are parsed; `popular` defaults to false and `isActive` to true |
| SubscriptionFormPage.Submit | src/app/pages/subscription-form/subscription-form.ts:108-148 | an invalid form only marks controls touched; a valid one updates exactly when editing a loaded plan with an `_id`, else creates |
| SubscriptionFormPage.SubmitVerb | src/app/pages/subscription-form/subscription-form.ts:124-126 | the request is a PUT exactly when the page updates, a POST otherwise |
| SubscriptionFormPage.SubmitFinish | src/app/pages/subscription-form/subscription-form.ts:128-142 | success goes to `/subscriptions`; a refused save and a failed request set their own messages and stop the spinner |
| SubscriptionFormPage.Cancel | src/app/pages/subscription-form/subscription-form.ts:151-153 | cancel goes to `/subscriptions`; nothing else changes |
| SubscriptionFormPage.CancelMatchesSaveRoute | src/app/pages/subscription-form/subscription-form.ts:128-153 | cancelling lands on `/subscriptions` exactly as an accepted save does; a refused or failed save does not navigate |
| SubscriptionFormPage.LoadedListsSurviveSave | src/app/pages/subscription-form/subscription-form.ts:86-118 | a loaded plan with clean lists, saved unchanged, sends the same lists back |
| SubscriptionList.Initial | src/app/pages/subscription-list/subscription-list.ts:25-31 | loading, no plans, form hidden, nothing selected |
| SubscriptionList.Normalise | src/app/pages/subscription-list/subscription-list.ts:48-58 | missing lists become `[]`, image `''`, popular false, active true only when missing, missing timestamps the load time; id, name, description, price and duration unchanged |
| SubscriptionList.NormaliseIdempotent | src/app/pages/subscription-list/subscription-list.ts:48-58 | filling in twice changes nothing more |
| SubscriptionList.NormaliseKeepsPresentFields | src/app/pages/subscription-list/subscription-list.ts:48-58 | a plan that already carries every field keeps its values |
| SubscriptionList.ActiveFlagSurvives | src/app/pages/subscription-list/subscription-list.ts:55 | a plan is shown inactive exactly when it was explicitly inactive |
| SubscriptionList.NormaliseAll | src/app/pages/subscription-list/subscription-list.ts:48 | each plan of the list is filled in, order and length kept |
| SubscriptionList.LoadStart | src/app/pages/subscription-list/subscription-list.ts:42-44 | the spinner comes on and the plans are requested |
| SubscriptionList.LoadFinish | src/app/pages/subscription-list/subscription-list.ts:44-69 | an accepted list replaces the plans, filled in; a refused one sets the error and keeps them; a failed request only stops the spinner |
| SubscriptionList.LoadedPlansNormalised | src/app/pages/subscription-list/subscription-list.ts:46-58 | after an accepted load every listed plan carries every shown field |
| SubscriptionList.OnEdit | src/app/pages/subscription-list/subscription-list.ts:72-75 | the form opens on the plan |
| SubscriptionList.OnAddNew | src/app/pages/subscription-list/subscription-list.ts:167-172 | the form opens with nothing selected |
| SubscriptionList.CloseForm | src/app/pages/subscription-list/subscription-list.ts:157-160 | the form closes and the selection is cleared |
| SubscriptionList.CloseUndoesOpen | src/app/pages/subscription-list/subscription-list.ts:72-172 | opening the form either way and closing it equals closing it directly |
| SubscriptionList.DeleteStart | src/app/pages/subscription-list/subscription-list.ts:85 | the plan is deleted without confirmation, by `_id` or `''` |
| SubscriptionList.DeleteFinish | src/app/pages/subscription-list/subscription-list.ts:86-96 | a reported success reloads; anything else changes nothing |
| SubscriptionList.DeleteThenReload | src/app/pages/subscription-list/subscription-list.ts:86-96 | a reported delete followed by an accepted reload shows the server's list filled in, the form as it was |
| SubscriptionList.ToggleStart | src/app/pages/subscription-list/subscription-list.ts:101-106 | no request without a truthy `_id`; otherwise the new flag is `!isActive` |
| SubscriptionList.ToggleFinish | src/app/pages/subscription-list/subscription-list.ts:108-117 | a reported success sets the plan's flag; anything else changes nothing |
| SubscriptionList.ToggleTwiceRestores | src/app/pages/subscription-list/subscription-list.ts:101-118 | two successful toggles of a plan with an explicit flag restore the screen |
| SubscriptionList.Prepare | src/app/pages/subscription-list/subscription-list.ts:123-134 | description and image default to `''`, price to 0, duration to 1, lists to `[]`, popular to false, active to true |
| SubscriptionList.AsDraft | src/app/pages/subscription-list/subscription-list.ts:121 | a complete plan body seen as the save handler's argument carries each of its nine fields unchanged |
| SubscriptionList.PageBodyNeedsNoDefaults | src/app/pages/subscription-list/subscription-list.ts:121-134 | the save handler's defaults never alter a body the embedded editor page builds from a form it accepts |
| SubscriptionList.ZeroDurationBecomesOne | src/app/pages/subscription-list/subscription-list.ts:128 | a complete draft is left unchanged exactly when its duration is non-zero; a zero becomes 1 |
| SubscriptionList.SaveStart | src/app/pages/subscription-list/subscription-list.ts:136-138 | a PUT of the prepared plan exactly when a plan is selected, by its `_id` or `''`, otherwise a POST |
| SubscriptionList.SaveFinish | src/app/pages/subscription-list/subscription-list.ts:140-154 | a reported success reloads and closes the form; anything else changes nothing |
| SubscriptionList.SaveThenReload | src/app/pages/subscription-list/subscription-list.ts:72-172 | an edit saves to the plan it was opened on and an add creates; a reported save and an accepted reload close the form and show the server's list; an unreported save keeps the form open on the same plan |
| SubscriptionService.ItemUrl | src/app/services/subscription.service.ts:42 | an item address is `<apiUrl>/admin/subscriptions/<id>` |
| SubscriptionService.ListCall | src/app/services/subscription.service.ts:29-33 | GET of the plans resource |
| SubscriptionService.OneCall | src/app/services/subscription.service.ts:40-44 | GET of one plan |
| SubscriptionService.CreateCall | src/app/services/subscription.service.ts:51-57 | POST of the plan to the plans resource |
| SubscriptionService.UpdateCall | src/app/services/subscription.service.ts:65-72 | PUT of the plan to its address |
| SubscriptionService.ToggleCall | src/app/services/subscription.service.ts:80-90 | PATCH of `{isActive}` to `<plan>/toggle-status` |
| SubscriptionService.DeleteCall | src/app/services/subscription.service.ts:97-101 | DELETE of the plan's address |
| SubscriptionService.ItemRequestsShareResource | src/app/services/subscription.service.ts:21-101 | read, update and delete of a plan share one address; the toggle sits under it, and it under the plans resource |
| SubscriptionService.HandleError | src/app/services/subscription.service.ts:109-120 | as written: a client event gives `Error: <message>`; no status gives the unknown-error text; a server error gives code and message; a server error without a body makes the handler throw |
| SubscriptionService.EmptyBodyCrashesHandler | src/app/services/subscription.service.ts:116 | a 500 with no body crashes the handler instead of reporting the status |
| SubscriptionService.HandleErrorFixed | src/app/services/subscription.service.ts:109-120 | corrected: always an `Error` with a message; a body-less server error reports its status and status text; otherwise as written |
| SubscriptionService.FixedHandlerNamesStatus | src/app/services/subscription.service.ts:114-117 | with the correction, two server errors with equal messages have equal status codes |
| DashboardService.ActiveOnly | src/app/services/dashboard.service.ts:40 | keeps exactly the plans whose `isActive` is true, never more than the list |
| DashboardService.Stats | src/app/services/dashboard.service.ts:34-53 | counters default to 0; countries and languages are list lengths; revenue is the active plans' prices; the active count is bounded by the list; a missing list gives 0 and 0 |
| DashboardService.Revenue | src/app/services/dashboard.service.ts:39-41 | the revenue of an empty list is 0; otherwise the first plan's price, when it is active, plus the revenue of the rest |
| DashboardService.ActiveOnlyAppend | src/app/services/dashboard.service.ts:40 | filtering distributes over concatenation |
| DashboardService.PriceSumAppend | src/app/services/dashboard.service.ts:41 | summing distributes over concatenation |
| DashboardService.RevenueAdds | src/app/services/dashboard.service.ts:39-43 | revenue and active count of a joined list are the sums of the parts' |
| DashboardService.InactivePlanChangesNothing | src/app/services/dashboard.service.ts:39-43 | adding or removing an inactive plan anywhere changes neither revenue nor active count |
| DashboardService.RevenueOfOne | src/app/services/dashboard.service.ts:39-41 | one plan contributes its price, missing or zero counting 0, when active, and nothing otherwise |
| DashboardService.RevenueBounds | src/app/services/dashboard.service.ts:39-41 | with no negative price, revenue lies between 0 and the sum of all prices |
| DashboardHelpers.StatusColor | src/app/pages/dashboard/dashboard.component.ts:360-375 | green exactly for `completed`/`on-track`, yellow for `pending`/`delayed`, red for `failed`, grey for everything else |
| DashboardHelpers.FirstLetters | src/app/pages/dashboard/dashboard.component.ts:378 | at most one letter per word |
| DashboardHelpers.FirstLettersOne | src/app/pages/dashboard/dashboard.component.ts:378 | one word gives its first character, an empty word nothing |
| DashboardHelpers.FirstLettersAppend | src/app/pages/dashboard/dashboard.component.ts:378 | the letters of two word lists joined are the letters of each, joined |
| DashboardHelpers.Initials | src/app/pages/dashboard/dashboard.component.ts:377-379 | no lower-case ASCII letter in the result; the empty name gives `''` |
| DashboardHelpers.FirstLettersCount | src/app/pages/dashboard/dashboard.component.ts:378 | exactly one letter per non-empty word; empty words give nothing |
| DashboardHelpers.InitialsOfWords | src/app/pages/dashboard/dashboard.component.ts:377-379 | for space-free words joined by spaces, the initials are the upper-cased first letters of exactly those words |
| DashboardHelpers.InitialsExample | src/app/pages/dashboard/dashboard.component.ts:377-379 | `Jane  doe`, with two spaces, gives `JD` |
| AuthService.Construct | src/app/services/auth.service.ts:29-37 | a stored token stays, but no user is restored |
| AuthService.TokenFollowsStorage | src/app/services/auth.service.ts:73-75 | the token read is what storage holds: the one the session started with, the last login's, none after a logout |
| AuthService.IsAuthenticated | src/app/services/auth.service.ts:80-82 | authenticated exactly when storage holds a non-empty token |
| AuthService.HasRole | src/app/services/auth.service.ts:87-90 | without a current user no role is held; with one, exactly that user's role |
| AuthService.AuthenticatedWithoutUser | src/app/services/auth.service.ts:29-90 | with a stored token and no login, the session counts as authenticated yet holds no role |
| AuthService.LoginStart | src/app/services/auth.service.ts:42-43 | the credentials are POSTed to `/admin/login` |
| AuthService.LoginFinish | src/app/services/auth.service.ts:44-50 | a reply stores its token and makes its user current, and the user is emitted; a failure changes nothing |
| AuthService.LoginAuthenticates | src/app/services/auth.service.ts:42-90 | after a login the session is authenticated exactly when the token is non-empty, has the user's role, and emits the current user |
| AuthService.Logout | src/app/services/auth.service.ts:56-61 | the token and user are removed and `/login` is requested |
| AuthService.LogoutUndoesLogin | src/app/services/auth.service.ts:56-90 | after a logout nothing is authenticated or holds a role, and a login before it leaves no trace |
| Login.Initial | src/app/pages/login/login.component.ts:15-27 | empty fields, idle, no error |
| Login.Valid | src/app/pages/login/login.component.ts:25-26 | a non-empty e-mail the e-mail check accepts and a password of at least 6 characters; `required` on the password is implied by the length |
| Login.CredentialsOf | src/app/pages/login/login.component.ts:34-39 | the form's e-mail and password, with `loginType` `email` and `role` `admin` |
| Login.Submit | src/app/pages/login/login.component.ts:30-40 | the login is posted exactly for a valid form; the spinner comes on and the error is cleared |
| Login.PayloadMessage | src/app/pages/login/login.component.ts:45 | `err.error?.message`: nothing for a thrown error or an empty payload |
| Login.SubmitFinish | src/app/pages/login/login.component.ts:40-48 | success navigates to `/`; failure shows the payload's message or `Login failed` and stops the spinner |
| Login.FailureAlwaysExplained | src/app/pages/login/login.component.ts:44-47 | a failed login always shows a non-empty error, the backend's own when it sent a non-empty one |
| Login.SubmitThenLogin | src/app/pages/login/login.component.ts:30-48 | a valid submit followed by a successful login leaves the user current and the screen heading home |
| EditUser.Initial | src/app/pages/users/components/edit-user/edit-user.component.ts:54-81 | editable, enabled, with no boxes yet |
| EditUser.Unticked | src/app/pages/users/components/edit-user/edit-user.component.ts:118 | `n` unticked boxes |
| EditUser.SetUp | src/app/pages/users/components/edit-user/edit-user.component.ts:115-122 | both groups are refilled with one unticked box per option; nothing else changes |
| EditUser.Selected | src/app/pages/users/components/edit-user/edit-user.component.ts:105 | every ticked option is selected, and only ticked options are |
| EditUser.SelectionCounts | src/app/pages/users/components/edit-user/edit-user.component.ts:105 | one entry per ticked box; no box ticked selects nothing; every box ticked selects all options |
| EditUser.SelectionIsSubsequence | src/app/pages/users/components/edit-user/edit-user.component.ts:105-110 | the selection keeps the options' order, the unticked ones dropped |
| EditUser.TickOrientation | src/app/pages/users/components/edit-user/edit-user.component.ts:103-107 | a tick updates one box and re-derives that group's selection; the other group is untouched |
| EditUser.TickInterest | src/app/pages/users/components/edit-user/edit-user.component.ts:108-112 | a tick updates one box and re-derives that group's selection; the other group is untouched |
| EditUser.Open | src/app/pages/users/components/edit-user/edit-user.component.ts:84-122 | view mode exactly for `view=true`; boxes set up afresh; the form is disabled exactly in view mode, because the freshly pushed enabled boxes make a form disabled by an earlier view valid again; both selections come out empty, since the earlier opens' `valueChanges` listeners patch them from the fresh unticked boxes |
| EditUser.Submit | src/app/pages/users/components/edit-user/edit-user.component.ts:124-139 | view mode does nothing; otherwise the selections are copied from the boxes and an enabled form returns to `/users`; a disabled form outside view mode, which no open produces, stays put |
| EditUser.ReopenForgetsTicks | src/app/pages/users/components/edit-user/edit-user.component.ts:99-122 | a box ticked before a re-open is forgotten: the boxes are unticked again and the selection is empty, in view mode too |
| EditUser.OpenIsOpened | src/app/pages/users/components/edit-user/edit-user.component.ts:84-122 | every open, and every tick after it, leaves the form disabled exactly in view mode with one box per option |
| EditUser.OpenedEditorSubmits | src/app/pages/users/components/edit-user/edit-user.component.ts:124-139 | on an opened screen outside view mode a submit returns to `/users`; in view mode it does nothing |
| EditUser.ViewThenEditSubmits | src/app/pages/users/components/edit-user/edit-user.component.ts:84-139 | re-opened without `view=true` after a view, the form is enabled again and a submit returns to `/users` with empty selections |
| EditUser.FreshSubmit | src/app/pages/users/components/edit-user/edit-user.component.ts:84-139 | a fresh editor submitted at once returns to `/users` with empty selections; in view mode it does nothing |
| Sidebar.Menu | src/app/components/sidebar/sidebar.component.ts:44-73 | four entries; only Manage Content is a group, with four children |
| Sidebar.AnyPrefix | src/app/components/sidebar/sidebar.component.ts:104-106 | true exactly when some child's route is a prefix of the URL |
| Sidebar.Expand | src/app/components/sidebar/sidebar.component.ts:103-107 | a group's expansion is set from the URL; a plain entry is untouched |
| Sidebar.UpdateExpansion | src/app/components/sidebar/sidebar.component.ts:100-109 | every group is expanded exactly when a child route prefixes the URL; nothing else changes |
| Sidebar.UpdateExpansionIdempotent | src/app/components/sidebar/sidebar.component.ts:100-109 | applying the expansion twice is applying it once |
| Sidebar.Toggle | src/app/components/sidebar/sidebar.component.ts:94-98 | a group flips its state, a missing state counting as collapsed; a plain entry and all other entries are untouched |
| Sidebar.ToggleTwice | src/app/components/sidebar/sidebar.component.ts:94-98 | toggling twice restores whether the entry shows as expanded, and any explicit state exactly |
| Sidebar.RawPrefixMatch | src/app/components/sidebar/sidebar.component.ts:104-106 | the match is a raw string prefix: `/content/hobbiesX` expands Manage Content, `/content` does not |
| UserDetails.Initial | src/app/pages/user-details/user-details.component.ts:51-58 | no user, loading, no error |
| UserDetails.Open | src/app/pages/user-details/user-details.component.ts:51-64 | a GET of `/admin/users/<id>` exactly for a truthy route `id`, with the spinner on and the error cleared |
| UserDetails.LoadFinish | src/app/pages/user-details/user-details.component.ts:64-78 | the user is shown exactly for `success` with `data.user`; otherwise `User not found`; a failure gives `Failed to load user details` |
| UserDetails.EditUser | src/app/pages/user-details/user-details.component.ts:85-90 | to `['/users', _id, 'edit']` only for a user with a truthy `_id` |
| UserDetails.Shown | src/app/pages/user-details/user-details.component.ts:92-165 | each text getter shows a truthy field, else `N/A`; never empty |
| UserDetails.TextFallbackIsDistinct | src/app/pages/user-details/user-details.component.ts:92-165 | a present value other than the literal `N/A` is never shown as the fallback |
| UserDetails.Age | src/app/pages/user-details/user-details.component.ts:102-105 | a non-zero age in decimal, else `N/A` |
| UserDetails.Height | src/app/pages/user-details/user-details.component.ts:107-110 | `<height> cm` for a non-zero height, else `N/A` |
| UserDetails.AgeReadsBack | src/app/pages/user-details/user-details.component.ts:102-105 | a positive age is shown as digits that read back as the age |
| UserDetails.InterestsText | src/app/pages/user-details/user-details.component.ts:157-160 | interests joined with `, `; missing or no interests give `N/A` |
| UserDetails.SeveralInterestsShown | src/app/pages/user-details/user-details.component.ts:157-160 | two or more interests are always shown joined, never as `N/A` |
| UserDetails.ProfilePic | src/app/pages/user-details/user-details.component.ts:167-170 | `profilePic`, else `profilePicture`, else `''` |
| UserDetails.GalleryImages | src/app/pages/user-details/user-details.component.ts:172-175 | the gallery's images or `[]` |
| UserDetails.GalleryVideos | src/app/pages/user-details/user-details.component.ts:177-180 | the gallery's videos or `[]` |
| UserDetails.HasGalleryContent | src/app/pages/user-details/user-details.component.ts:182-184 | true exactly when there is an image or a video |
| UserDetails.OpenImage | src/app/pages/user-details/user-details.component.ts:186-188 | the chosen image is shown |
| UserDetails.CloseImage | src/app/pages/user-details/user-details.component.ts:190-192 | the viewer closes |
| UserDetails.CloseUndoesOpen | src/app/pages/user-details/user-details.component.ts:186-192 | closing the viewer undoes opening it, whichever image was chosen |

## Left out

- Transport, Observables and change detection are not modelled. A reply is an
  input value, and an operation that fires several requests returns them all
  at once.
- `new Date().toISOString()` is not computed. It is the `now` parameter of
  `SubscriptionList.LoadFinish` and `SubscriptionList.Normalise`.
- Angular's e-mail validator is not modelled. Its verdict is the
  `emailWellFormed` parameter of `Login.Valid` and `Login.Submit`.
- Browser storage is the `storedToken` field, and `confirm()` dialogs are the
  `confirmed` parameter. The router is the `navigation` field.
- `console.error`/`console.log`, the icons, the `testClick` alert,
  `getIconForContent`, `formatDate` and the dashboard charts and sample data
  are not modelled. They are presentation only.
- The toast's five-second auto-hide timer on the users screen is not
  modelled, because it needs a clock. `Users.ClearToast` is what it calls.
- `onPerksInput` is not modelled. It only resizes the textarea.
- `onClickOutside` on the users screen is not modelled. It depends on the DOM
  and only calls `Users.CloseAllDropdowns`.
- `onBack` on the user editor (`location.back()`) and `goBack` on the user
  details screen are not modelled. They are pure navigation.
- `storeId` in `onSaveSubscription` is copied through and nothing reads it,
  so `SubscriptionList.Draft` omits it.
- Prices, durations and ages are whole numbers. Floating point, `NaN` and
  `Number(...)` coercion of non-numeric text are not modelled.
- `Text.Trim` uses a fixed set of whitespace characters, not Unicode's full
  list. `Text.Upper` covers ASCII letters only.
- The `valueChanges` subscriptions the user editor and the subscription page
  re-register on every route change are not modelled one by one. Their effect
  is modelled once, in `EditUser.TickOrientation`, `EditUser.TickInterest`,
  `SubscriptionFormPage.SetFeatures` and `SubscriptionFormPage.SetPerks`. In
  the user editor the stale listeners also fire while a re-open rebuilds the
  boxes; all pushes but the last raise an error inside the listener, which
  the model does not represent, and the last one empties both selections,
  which `EditUser.Open` states.
- The `user.service.ts` calls behind the users and user details screens are
  modelled only by the requests the screens send. That file is not part of
  the core.
- The plan editor page calls the second client in `services/subscription.ts`,
  while the plan list calls `subscription.service.ts`. Both send the same
  requests: same base URL, verbs, paths and bodies. `SubscriptionService`'s
  request functions (`ListCall`, `OneCall`, `CreateCall`, `UpdateCall`) stand
  for both. The second client has no error mapping; the page sees its
  transport errors unchanged, which is what `SubscriptionFormPage` takes as
  input.
- The plan list embeds the editor page, not the reusable form component. The
  page saves on its own and emits nothing, so the argument of
  `onSaveSubscription` is modelled as an arbitrary `SubscriptionList.Draft`.
- SubscriptionFormComponent.Patch: a plan key that is present with the value
  `null` is treated like a missing key. `patchValue` would write `null` into
  the control, and a `null` name, price or duration then fails `required`, so
  the form would emit nothing. Plans are `Subscription` records whose optional
  fields cannot tell "absent" from "null".
- SubscriptionList.Normalise: a plan whose `isActive` is present as `null` is
  shown as active. The source's `isActive !== undefined ? isActive : true`
  keeps the `null`, a falsy flag. The same record
  limitation applies: a missing flag and a `null` flag are both `None`.
- SubscriptionFormPage.Filled: the same `isActive: null` case; the source
  writes `null` into the checkbox, the model writes `true`.
- ContentService.PathResolution: a key that names a property every JavaScript
  object inherits, such as `constructor` or `__proto__`, resolves to that
  property rather than to itself. The model treats every key missing from the
  table as resolving to itself.
- ContentService.DisplayName: the same inherited-property keys are not
  modelled; any key missing from the table is shown as itself.
- `getDashboardStats` crashes when `userStats.data.stats` is missing. This is
  not modelled: `DashboardService.Stats` takes the counters object as given.
- SubscriptionList.ToggleFinish: updates the plan at the list position it was
  toggled from. The source mutates the plan object it was handed, and after a
  reload that object may no longer be listed. That stale-object case is not
  modelled.
- Users.ChangeItemsPerPage: requires a positive page size. The screen only
  offers 5, 10, 20 and 50, and a page size of 0 would divide by zero in
  `totalPages`.
- Users.LoadFinish: requires a positive page size, for the same reason: a new
  total recomputes the page count.
- Users.SetTotal: requires a positive page size, for the same reason.
- The `totalPages` computed is lazy: it recomputes when it is next read. The
  model recomputes it when the total changes. The two agree because the
  template calls `getPaginationRange`, which reads the count, on every render
  after a reply. The template itself is not part of this model.
- CountriesLanguagesList.UpdatePagination: requires `currentPage >= 1`. The
  screen starts on page 1 and only ever moves to pages in `1..totalPages` or
  `max(1, totalPages)`.
- CountriesLanguagesList.DeleteFinish: requires `currentPage >= 1`, for the
  same reason.
- CountriesLanguagesList.GoToPage: requires `currentPage >= 1`, for the
  same reason.
- CountriesLanguagesList.LoadFinish: requires `currentPage >= 1`, for the
  same reason.
- CountriesLanguagesOverview.Complete: requires the card index to be in
  range. The source only uses indices from `forEach` over the cards.
- EditUser.Selected: requires as many boxes as options. `SetUp` creates
  exactly one box per option.
- Users.PaginationRange: the method states the window's shape. It does not
  state its exact start, which is `max(1, current - 2)` pulled back so that
  five pages fit.

## Findings

| source | as written | input that shows it | evidently intended | confidence | as-written member | corrected member |
|---|---|---|---|---|---|---|
| src/app/services/api.service.ts:43-54 | `request` has no `PATCH` case, so `patch()` always throws `Unsupported request: PATCH` | `patch('/x', {})` with any path and body | `PATCH` sent with its body, like `PUT` | high, not executed | ApiService.PatchNeverSends | ApiService.RequestFixed |
| src/app/services/subscription.service.ts:116 | a server error with no response body reads `error.error.message` of `null`, so the handler itself throws a `TypeError` | status 500, status text `Internal Server Error`, body `null` | report `Error Code: 500` with the status text | medium, not executed | SubscriptionService.EmptyBodyCrashesHandler | SubscriptionService.HandleErrorFixed |
| src/app/pages/content-list/content-list.component.ts:70-73 | any delivered delete reply removes the row, even one whose `success` is `false` | a delete reply `{success: false}` for a listed item | keep the row and report the failure | high, not executed | ContentList.RejectedDeleteRemovesRow | ContentList.DeleteFinishChecked |
| src/app/pages/users/users.component.ts:52 | `totalPages` is memoised on `totalRecords` only, so a page-size change leaves the page count stale until the total changes | 100 records at 10 a page, then 50 a page and the same 100 records reloaded: page 3 is still offered and requested | the count follows both the total and the page size | medium, not executed | Users.StalePageCountAfterResize | Users.ChangePageFresh |
| src/app/pages/countries-languages-list/countries-languages-list.component.ts:89-92 | any delivered delete reply removes the row, even one whose `success` is `false` | a delete reply `{success: false}` for a listed country | keep the row and report the failure | high, not executed | CountriesLanguagesList.RejectedDeleteRemovesRow | CountriesLanguagesList.DeleteFinishChecked |

Two screens remove a row before checking `success`: the content list and
the countries/languages list. The model follows the code on both. Both
screens' corrected delete is used by `ContentList.CheckedDeleteRemovesOnlyConfirmed`
and `CountriesLanguagesList.CheckedDeleteKeepsRejectedRow`.
The users screen's corrected page change, with a page count that follows the
page size, is the one `Users.FreshPageHoldsRecords` is proved over.
