/** The two create/edit screens of a single taxonomy record: the content
    editor (`/content/:type/...`) and the country/language editor
    (`/countries-languages/:type/...`). Both run the same state machine; they
    differ only in the client they call, the display name and the route they
    return to. */
module EditItem {
  import opened Values
  import opened Http
  import opened Items
  import ContentService
  import CountriesLanguagesService

  /** Which of the two screens. */
  datatype Editor = ContentEditor | CountryLanguageEditor

  datatype Screen = Screen(
    editor: Editor,
    contentType: string,
    displayName: string,
    name: Option<string>,
    isEditing: bool,
    isLoading: bool,
    isSubmitting: bool,
    error: Option<string>,
    currentItem: Option<Item>,
    navigation: Option<seq<string>>)

  function Initial(editor: Editor): (s: Screen)
    ensures s.editor == editor && !s.isEditing && !s.isLoading && !s.isSubmitting
    ensures s.name == Some("") && s.currentItem.None? && s.navigation.None?
  {
    Screen(editor, "", "", Some(""), false, false, false, None, None, None)
  }

  const LoadFailed := "Failed to load item. Please try again."
  const DeleteFailed := "Failed to delete item. Please try again."

  /** The `name` control: required and at least 2 characters long. */
  predicate Valid(name: Option<string>)
    ensures Valid(name) ==> Truthy(name)
    ensures Truthy(name) ==> (Valid(name) <==> |name.value| >= 2)
  {
    name.Some? && |name.value| >= 2
  }

  /** The display name: the content table's for the content editor; for the
      other, `Countries` exactly for the type `countries`, else `Languages`. */
  function DisplayNameOf(editor: Editor, contentType: string): (d: string)
    ensures editor.ContentEditor? ==> d == ContentService.DisplayName(contentType)
    ensures editor.CountryLanguageEditor? ==> (d == "Countries" <==> contentType == "countries")
    ensures editor.CountryLanguageEditor? && contentType != "countries" ==> d == "Languages"
  {
    match editor
    case ContentEditor => ContentService.DisplayName(contentType)
    case CountryLanguageEditor => if contentType == "countries" then "Countries" else "Languages"
  }

  function LoadCall(s: Screen, apiUrl: string, id: string): Call<ItemData> {
    match s.editor
    case ContentEditor => ContentService.GetItemCall(apiUrl, s.contentType, id)
    case CountryLanguageEditor => CountriesLanguagesService.OneCall(apiUrl, CountriesLanguagesService.KindOfType(s.contentType), id)
  }

  function AddCall(s: Screen, apiUrl: string, item: Item): Call<ItemData> {
    match s.editor
    case ContentEditor => ContentService.AddItemCall(apiUrl, s.contentType, item)
    case CountryLanguageEditor => CountriesLanguagesService.AddCall(apiUrl, CountriesLanguagesService.KindOfType(s.contentType), item)
  }

  function UpdateCall(s: Screen, apiUrl: string, id: string, item: Item): Call<ItemData> {
    match s.editor
    case ContentEditor => ContentService.UpdateItemCall(apiUrl, s.contentType, id, item)
    case CountryLanguageEditor => CountriesLanguagesService.UpdateCall(apiUrl, CountriesLanguagesService.KindOfType(s.contentType), id, item)
  }

  function DeleteCall(s: Screen, apiUrl: string, id: string): Call<ItemData> {
    match s.editor
    case ContentEditor => ContentService.DeleteItemCall(apiUrl, s.contentType, id)
    case CountryLanguageEditor => CountriesLanguagesService.DeleteCall(apiUrl, CountriesLanguagesService.KindOfType(s.contentType), id)
  }

  /** The list the screen returns to: `['/content', type]` or `['/countries-languages', type]`. */
  function ListRoute(s: Screen): (r: seq<string>)
    ensures |r| == 2 && r[1] == s.contentType
    ensures r[0] == (if s.editor.ContentEditor? then "/content" else "/countries-languages")
  {
    [if s.editor.ContentEditor? then "/content" else "/countries-languages", s.contentType]
  }

  /** The route parameters arrive: with a truthy `id` the record is loaded and
      the screen edits it; without one it creates and the form is reset. */
  function Open(s: Screen, apiUrl: string, typeParam: Option<string>, idParam: Option<string>): (r: (Screen, Option<Call<ItemData>>))
    ensures r.0.contentType == StrOr(typeParam, "")
    ensures r.0.displayName == DisplayNameOf(s.editor, StrOr(typeParam, ""))
    ensures r.0.isEditing <==> Truthy(idParam)
    ensures r.1.Some? <==> Truthy(idParam)
    ensures Truthy(idParam) ==> r.0.isLoading && r.0.error.None? && r.0.name == s.name
    ensures Truthy(idParam) ==> r.1.value == LoadCall(r.0, apiUrl, idParam.value)
    ensures !Truthy(idParam) ==> r.0.name == Some("") && r.0.isLoading == s.isLoading && r.0.error == s.error
    ensures r.0.editor == s.editor && r.0.currentItem == s.currentItem && r.0.isSubmitting == s.isSubmitting
    ensures r.0.navigation == s.navigation
  {
    var t := StrOr(typeParam, "");
    var s1 := s.(contentType := t, displayName := DisplayNameOf(s.editor, t));
    if Truthy(idParam) then
      (s1.(isLoading := true, error := None, isEditing := true), Some(LoadCall(s1, apiUrl, idParam.value)))
    else
      (s1.(isEditing := false, name := Some("")), None)
  }

  /** The loaded record becomes the current item and fills the form; a
      failure reports the load error. The spinner goes off either way. */
  function LoadFinish(s: Screen, outcome: Outcome<Item>): (r: Screen)
    ensures !r.isLoading
    ensures outcome.Next? ==> r == s.(currentItem := Some(outcome.value), name := Some(outcome.value.name), isLoading := false)
    ensures outcome.Error? ==> r == s.(error := Some(LoadFailed), isLoading := false)
  {
    match outcome
    case Next(item) => s.(currentItem := Some(item), name := Some(item.name), isLoading := false)
    case Error(_) => s.(error := Some(LoadFailed), isLoading := false)
  }

  /** The record a submit sends: `{name}` and nothing else. */
  function NameOnly(name: string): (item: Item)
    ensures StripId(item) == ItemData(None, name, None, None, None)
  {
    Item(None, None, name, None, None, None)
  }

  /** A submit updates exactly when editing a loaded record with a truthy `id`. */
  predicate Updates(s: Screen) {
    s.isEditing && s.currentItem.Some? && Truthy(s.currentItem.value.id)
  }

  /** `onSubmit`, first half: an invalid form does nothing; otherwise the
      screen is busy, the error cleared and the name sent as an update of the
      current record or as a new one. */
  function Submit(s: Screen, apiUrl: string): (r: (Screen, Option<Call<ItemData>>))
    ensures r.1.Some? <==> Valid(s.name)
    ensures !Valid(s.name) ==> r.0 == s
    ensures Valid(s.name) ==> r.0 == s.(isSubmitting := true, error := None)
    ensures Valid(s.name) ==> r.1.value.body == Some(StripId(NameOnly(s.name.value)))
    ensures Valid(s.name) && Updates(s) ==>
      r.1.value == UpdateCall(s, apiUrl, s.currentItem.value.id.value, NameOnly(s.name.value))
    ensures Valid(s.name) && !Updates(s) ==> r.1.value == AddCall(s, apiUrl, NameOnly(s.name.value))
  {
    if !Valid(s.name) then (s, None)
    else
      var item := NameOnly(s.name.value);
      var call := if Updates(s) then UpdateCall(s, apiUrl, s.currentItem.value.id.value, item)
                  else AddCall(s, apiUrl, item);
      (s.(isSubmitting := true, error := None), Some(call))
  }

  /** A submit sends a PUT exactly when it updates and a POST otherwise, on
      both screens. */
  lemma SubmitVerb(s: Screen, apiUrl: string)
    requires Valid(s.name)
    ensures Submit(s, apiUrl).1.value.verb == PUT <==> Updates(s)
    ensures Submit(s, apiUrl).1.value.verb == POST <==> !Updates(s)
  {
  }

  /** `Failed to ${isEditing ? 'update' : 'create'} item. Please try again.` */
  function SaveFailed(isEditing: bool): string {
    "Failed to " + (if isEditing then "update" else "create") + " item. Please try again."
  }

  /** `onSubmit`, second half: success returns to the list, failure reports
      the save error; the screen is no longer busy either way. */
  function SubmitFinish(s: Screen, outcome: Outcome<Item>): (r: Screen)
    ensures !r.isSubmitting
    ensures outcome.Next? ==> r == s.(isSubmitting := false, navigation := Some(ListRoute(s)))
    ensures outcome.Error? ==> r == s.(isSubmitting := false, error := Some(SaveFailed(s.isEditing)))
  {
    match outcome
    case Next(_) => s.(isSubmitting := false, navigation := Some(ListRoute(s)))
    case Error(_) => s.(isSubmitting := false, error := Some(SaveFailed(s.isEditing)))
  }

  /** The save error says `update` exactly when the screen is in edit mode,
      which need not be the request that failed: an edit screen whose record
      did not load sends a create and still reports a failed update. */
  lemma SaveErrorFollowsMode(s: Screen, apiUrl: string, e: Reason)
    requires Valid(s.name)
    ensures SubmitFinish(Submit(s, apiUrl).0, Error(e)).error == Some(SaveFailed(s.isEditing))
    ensures SaveFailed(true) != SaveFailed(false)
    ensures s.isEditing && s.currentItem.None? ==>
      Submit(s, apiUrl).1.value.verb == POST
      && SubmitFinish(Submit(s, apiUrl).0, Error(e)).error == Some(SaveFailed(true))
  {
    assert SaveFailed(true)[10] != SaveFailed(false)[10];
  }

  /** `onDelete`, first half: nothing without a current record with a truthy
      `id`, nothing unless confirmed; otherwise the screen is busy and the
      record deleted by its `id`. */
  function DeleteStart(s: Screen, apiUrl: string, confirmed: bool): (r: (Screen, Option<Call<ItemData>>))
    ensures r.1.Some? <==> confirmed && s.currentItem.Some? && Truthy(s.currentItem.value.id)
    ensures r.1.None? ==> r.0 == s
    ensures r.1.Some? ==> r.0 == s.(isSubmitting := true, error := None)
    ensures r.1.Some? ==> r.1.value == DeleteCall(s, apiUrl, s.currentItem.value.id.value)
  {
    if !(s.currentItem.Some? && Truthy(s.currentItem.value.id)) || !confirmed then (s, None)
    else (s.(isSubmitting := true, error := None), Some(DeleteCall(s, apiUrl, s.currentItem.value.id.value)))
  }

  /** `onDelete`, second half: any delivered reply returns to the list,
      whatever `success` flag it carries; a failure reports the delete error. */
  function DeleteFinish(s: Screen, outcome: Outcome<bool>): (r: Screen)
    ensures !r.isSubmitting
    ensures outcome.Next? ==> r == s.(isSubmitting := false, navigation := Some(ListRoute(s)))
    ensures outcome.Error? ==> r == s.(isSubmitting := false, error := Some(DeleteFailed))
  {
    match outcome
    case Next(_) => s.(isSubmitting := false, navigation := Some(ListRoute(s)))
    case Error(_) => s.(isSubmitting := false, error := Some(DeleteFailed))
  }

  /** A delete the backend refused leaves the screen exactly as one it accepted. */
  lemma DeleteIgnoresFlag(s: Screen)
    ensures DeleteFinish(s, Next(false)) == DeleteFinish(s, Next(true))
    ensures DeleteFinish(s, Next(false)).navigation == Some(ListRoute(s))
  {
  }

  /** `goBack`: leave for the editor's list; nothing else changes. */
  function GoBack(s: Screen): (r: Screen)
    ensures r.navigation == Some(ListRoute(s))
    ensures r.(navigation := s.navigation) == s
  {
    s.(navigation := Some(ListRoute(s)))
  }

  /** Going back lands where a successful save or delete lands, and differs
      from them only in leaving the submitting flag alone. */
  lemma GoBackMatchesSuccessRoute(s: Screen, saved: Item, deleted: bool)
    ensures GoBack(s).navigation == SubmitFinish(s, Next(saved)).navigation
    ensures GoBack(s).navigation == DeleteFinish(s, Next(deleted)).navigation
    ensures GoBack(s).(isSubmitting := false) == SubmitFinish(s, Next(saved))
  {
  }

  /** The country/language editor addresses the same endpoints as the content
      editor opened on the matching content type (`nationalities` or
      `native-languages`), with the same record sent. */
  lemma EditorsAgree(s: Screen, apiUrl: string, id: string, item: Item)
    requires s.editor.CountryLanguageEditor?
    ensures var c := s.(editor := ContentEditor,
                        contentType := CountriesLanguagesService.ContentKey(CountriesLanguagesService.KindOfType(s.contentType)));
            LoadCall(s, apiUrl, id) == LoadCall(c, apiUrl, id)
            && AddCall(s, apiUrl, item) == AddCall(c, apiUrl, item)
            && UpdateCall(s, apiUrl, id, item) == UpdateCall(c, apiUrl, id, item)
            && DeleteCall(s, apiUrl, id) == DeleteCall(c, apiUrl, id)
  {
    CountriesLanguagesService.RequestsAgreeWithContentService(apiUrl, CountriesLanguagesService.KindOfType(s.contentType), id, item);
  }
}
