/** The stand-alone subscription editor page: the route's `id` decides between
    editing and creating, typing in the features box keeps it normalised with
    a live count of non-empty lines, and saving goes back to the plan list. */
module SubscriptionFormPage {
  import opened Values
  import opened Http
  import opened LineList
  import opened SubscriptionService
  import SubscriptionFormComponent

  type FormValue = SubscriptionFormComponent.FormValue

  datatype Page = Page(
    plan: Option<Subscription>,
    form: FormValue,
    isEditing: bool,
    loading: bool,
    error: Option<string>,
    featuresCount: nat,
    perksCount: nat,
    touched: bool,
    navigation: Option<string>)

  /** The page before `ngOnInit`. */
  function Initial(): (p: Page)
    ensures !p.isEditing && !p.loading && p.featuresCount == 0 && !p.touched
  {
    Page(None, SubscriptionFormComponent.InitialForm(), false, false, None, 0, 0, false, None)
  }

  /** `name`: at least 3 characters; `description`: required, at least 10;
      `price` at least 0; `duration` at least 1; `imageUrl` required. */
  predicate Valid(f: FormValue)
    ensures Valid(f) ==> SubscriptionFormComponent.Valid(f)
    ensures Valid(f) ==> Truthy(f.description) && |f.description.value| >= 10 && Truthy(f.imageUrl)
  {
    f.name.Some? && |f.name.value| >= 3
    && Truthy(f.description) && |f.description.value| >= 10
    && f.price.Some? && f.price.value >= 0
    && f.duration.Some? && f.duration.value >= 1
    && Truthy(f.imageUrl)
  }

  /** The page's rules are stricter than those of the reusable form component. */
  lemma PageValidityIsStricter(f: FormValue)
    ensures Valid(f) ==> SubscriptionFormComponent.Valid(f)
  {
  }

  /** `ngOnInit`: an `id` in the route means editing, and the plan is fetched. */
  function Open(apiUrl: string, id: Option<string>): (r: (Page, Option<Call<Body>>))
    ensures r.0.isEditing <==> Truthy(id)
    ensures r.1.Some? <==> Truthy(id)
    ensures Truthy(id) ==> r.0 == Initial().(isEditing := true, loading := true)
    ensures Truthy(id) ==> r.1.value == OneCall(apiUrl, id.value)
    ensures !Truthy(id) ==> r.0 == Initial()
  {
    if Truthy(id) then (Initial().(isEditing := true, loading := true), Some(OneCall(apiUrl, id.value)))
    else (Initial(), None)
  }

  /** The features control changed: the count follows its text (`''` when null). */
  function SetFeatures(p: Page, text: Option<string>): (r: Page)
    ensures r.form.features == text
    ensures r.featuresCount == CountNonEmptyLines(StrOr(text, ""))
    ensures r.(form := p.form, featuresCount := p.featuresCount) == p
  {
    p.(form := p.form.(features := text), featuresCount := CountNonEmptyLines(StrOr(text, "")))
  }

  /** The perks control changed. */
  function SetPerks(p: Page, text: Option<string>): (r: Page)
    ensures r.form.perks == text
    ensures r.perksCount == CountNonEmptyLines(StrOr(text, ""))
    ensures r.(form := p.form, perksCount := p.perksCount) == p
  {
    p.(form := p.form.(perks := text), perksCount := CountNonEmptyLines(StrOr(text, "")))
  }

  /** `onFeaturesInput`: the box is rewritten with its non-blank lines and the
      count set to how many there are. */
  function FeaturesInput(p: Page, text: string): (r: Page)
    ensures r.form.features == Some(Normalise(text))
    ensures r.featuresCount == |Parse(text)|
  {
    SetFeatures(p, Some(Normalise(text))).(featuresCount := |Parse(text)|)
  }

  /** The count `onFeaturesInput` stores is the one the change listener
      computes from the rewritten text, so the two never disagree. */
  lemma FeaturesInputAgreesWithListener(p: Page, text: string)
    ensures FeaturesInput(p, text) == SetFeatures(p, Some(Normalise(text)))
  {
    NormalisedCount(text);
  }

  /** The controls after an accepted load: lists one entry per line, the
      image `''` when missing, `popular` false unless set, `isActive` true
      only when missing. */
  function Filled(f: FormValue, plan: Subscription): (r: FormValue)
    ensures r.features == Some(RenderField(plan.features))
    ensures r.perks == Some(RenderField(plan.perks))
    ensures r.popular == Some(IsTrue(plan.popular))
    ensures r.isActive == Some(DefaultTrue(plan.isActive))
    ensures r.imageUrl == Some(StrOr(plan.imageUrl, ""))
    ensures r.name == Some(plan.name) && r.description == plan.description
  {
    SubscriptionFormComponent.FormValue(
      Some(plan.name), plan.description, plan.price, plan.duration,
      Some(RenderField(plan.features)), Some(RenderField(plan.perks)),
      Some(StrOr(plan.imageUrl, "")), Some(IsTrue(plan.popular)), Some(DefaultTrue(plan.isActive)))
  }

  /** `loadSubscription`: an accepted reply fills the form and, through the
      change listeners, the counters; a failure reports it. */
  function LoadFinish(p: Page, outcome: Outcome<Envelope<Subscription>>): (r: Page)
    ensures !r.loading
    ensures outcome.Next? && outcome.value.success && outcome.value.data.Some? ==>
      r.plan == outcome.value.data
      && r.form == Filled(p.form, outcome.value.data.value)
      && r.featuresCount == CountNonEmptyLines(RenderField(outcome.value.data.value.features))
      && r.perksCount == CountNonEmptyLines(RenderField(outcome.value.data.value.perks))
    ensures outcome.Next? && !(outcome.value.success && outcome.value.data.Some?) ==>
      r == p.(loading := false)
    ensures outcome.Error? ==>
      r == p.(error := Some("Failed to load subscription details"), loading := false)
  {
    match outcome
    case Next(env) =>
      if env.success && env.data.Some? then
        var plan := env.data.value;
        p.(plan := Some(plan), form := Filled(p.form, plan),
           featuresCount := CountNonEmptyLines(RenderField(plan.features)),
           perksCount := CountNonEmptyLines(RenderField(plan.perks)),
           loading := false)
      else p.(loading := false)
    case Error(_) => p.(error := Some("Failed to load subscription details"), loading := false)
  }

  /** The body `onSubmit` sends for a valid form. */
  function Data(f: FormValue): (d: SubscriptionData)
    requires Valid(f)
    ensures d.features == ParseField(f.features) && d.perks == ParseField(f.perks)
    ensures d.popular == IsTrue(f.popular) && d.isActive == DefaultTrue(f.isActive)
    ensures d.name == f.name.value && d.imageUrl == f.imageUrl.value
    ensures d.description == f.description.value && |d.description| >= 10
    ensures d.price == f.price.value && d.price >= 0
    ensures d.duration == f.duration.value && d.duration >= 1
  {
    SubscriptionData(f.name.value, f.description.value, f.price.value, f.duration.value,
                     ParseField(f.features), ParseField(f.perks), f.imageUrl.value,
                     IsTrue(f.popular), DefaultTrue(f.isActive))
  }

  /** Whether a save updates: only when editing a loaded plan that has an `_id`. */
  predicate Updates(p: Page) {
    p.isEditing && p.plan.Some? && Truthy(p.plan.value.backendId)
  }

  /** `onSubmit`: an invalid form only marks every control touched; a valid
      one is sent as an update of the loaded plan or as a new plan. */
  function Submit(p: Page, apiUrl: string): (r: (Page, Option<Call<Body>>))
    ensures !Valid(p.form) ==> r == (p.(touched := true), None)
    ensures Valid(p.form) ==> r.0 == p.(loading := true) && r.1.Some?
    ensures Valid(p.form) && Updates(p) ==>
      r.1.value == UpdateCall(apiUrl, p.plan.value.backendId.value, Data(p.form))
    ensures Valid(p.form) && !Updates(p) ==> r.1.value == CreateCall(apiUrl, Data(p.form))
  {
    if !Valid(p.form) then (p.(touched := true), None)
    else if Updates(p) then
      (p.(loading := true), Some(UpdateCall(apiUrl, p.plan.value.backendId.value, Data(p.form))))
    else (p.(loading := true), Some(CreateCall(apiUrl, Data(p.form))))
  }

  /** A submitted request is a PUT exactly when the page updates, a POST otherwise. */
  lemma SubmitVerb(p: Page, apiUrl: string)
    requires Valid(p.form)
    ensures Submit(p, apiUrl).1.value.verb == (if Updates(p) then PUT else POST)
  {
  }

  /** `onSubmit`, once the request ends: success navigates to the plan list
      (the page stays busy), a rejected save or a transport error reports it. */
  function SubmitFinish(p: Page, outcome: Outcome<Envelope<Subscription>>): (r: Page)
    ensures outcome.Next? && outcome.value.success ==> r == p.(navigation := Some("/subscriptions"))
    ensures outcome.Next? && !outcome.value.success ==>
      r == p.(error := Some("Failed to save subscription"), loading := false)
    ensures outcome.Error? ==>
      r == p.(error := Some("An error occurred while saving the subscription"), loading := false)
  {
    match outcome
    case Next(env) =>
      if env.success then p.(navigation := Some("/subscriptions"))
      else p.(error := Some("Failed to save subscription"), loading := false)
    case Error(_) => p.(error := Some("An error occurred while saving the subscription"), loading := false)
  }

  /** `onCancel`: leave for the plan list; the form is dropped as it is. */
  function Cancel(p: Page): (r: Page)
    ensures r.navigation == Some("/subscriptions")
    ensures r.(navigation := p.navigation) == p
  {
    p.(navigation := Some("/subscriptions"))
  }

  /** Cancelling lands where an accepted save lands, and is the only way to
      get there without sending anything; a refused or failed save stays. */
  lemma CancelMatchesSaveRoute(p: Page, saved: Envelope<Subscription>, e: Reason)
    requires saved.success
    ensures Cancel(p) == SubmitFinish(p, Next(saved))
    ensures SubmitFinish(p, Next(saved.(success := false))).navigation == p.navigation
    ensures SubmitFinish(p, Error(e)).navigation == p.navigation
  {
  }

  /** Editing a loaded plan and saving it unchanged sends its lists back
      intact, provided they hold single non-blank lines. */
  lemma LoadedListsSurviveSave(f: FormValue, plan: Subscription)
    requires CleanField(plan.features)
    requires CleanField(plan.perks)
    requires Valid(Filled(f, plan))
    ensures Data(Filled(f, plan)).features == plan.features.GetOr([])
    ensures Data(Filled(f, plan)).perks == plan.perks.GetOr([])
  {
    FieldRoundTrip(plan.features);
    FieldRoundTrip(plan.perks);
  }
}
