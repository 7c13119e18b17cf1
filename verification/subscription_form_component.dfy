/** The embedded subscription form: a plan is loaded into the controls with
    its feature and perk lists rendered one per line, and a valid form emits
    a complete plan with every missing value defaulted. */
module SubscriptionFormComponent {
  import opened Values
  import opened LineList
  import opened SubscriptionService

  /** The values of the form's controls; any control may hold `null`. */
  datatype FormValue = FormValue(
    name: Option<string>,
    description: Option<string>,
    price: Option<int>,
    duration: Option<int>,
    features: Option<string>,
    perks: Option<string>,
    imageUrl: Option<string>,
    popular: Option<bool>,
    isActive: Option<bool>)

  /** The controls as the constructor creates them. */
  function InitialForm(): (f: FormValue)
    ensures f.price == Some(0) && f.duration == Some(1)
    ensures f.popular == Some(false) && f.isActive == Some(true)
    ensures !Valid(f)
  {
    FormValue(Some(""), Some(""), Some(0), Some(1), Some(""), Some(""), Some(""), Some(false), Some(true))
  }

  /** `name`: required, at least 3 characters; `price`: required, at least 0;
      `duration`: required, at least 1. */
  predicate Valid(f: FormValue)
    ensures Valid(f) ==> Truthy(f.name) && f.duration.Some? && f.duration.value != 0
    ensures !Truthy(f.name) || f.price.None? || f.duration.None? ==> !Valid(f)
  {
    f.name.Some? && |f.name.value| >= 3
    && f.price.Some? && f.price.value >= 0
    && f.duration.Some? && f.duration.value >= 1
  }

  /** `patchValue` of one control: a key the patch carries overwrites it. */
  function Patch<T>(current: Option<T>, incoming: Option<T>): (r: Option<T>)
    ensures incoming.Some? ==> r == incoming
    ensures incoming.None? ==> r == current
  {
    if incoming.Some? then incoming else current
  }

  /** `ngOnInit`: patch the controls from the plan being edited; the lists
      are shown one entry per line. Without a plan the form stays as it is. */
  function Init(f: FormValue, plan: Option<Subscription>): (r: FormValue)
    ensures plan.None? ==> r == f
    ensures plan.Some? ==> r.name == Some(plan.value.name)
    ensures plan.Some? ==> r.features == Some(RenderField(plan.value.features))
    ensures plan.Some? ==> r.perks == Some(RenderField(plan.value.perks))
    ensures plan.Some? ==> r.description == Patch(f.description, plan.value.description)
    ensures plan.Some? ==> r.price == Patch(f.price, plan.value.price)
    ensures plan.Some? ==> r.duration == Patch(f.duration, plan.value.duration)
    ensures plan.Some? ==> r.imageUrl == Patch(f.imageUrl, plan.value.imageUrl)
    ensures plan.Some? ==> r.popular == Patch(f.popular, plan.value.popular)
    ensures plan.Some? ==> r.isActive == Patch(f.isActive, plan.value.isActive)
  {
    match plan
    case None => f
    case Some(p) =>
      FormValue(Some(p.name), Patch(f.description, p.description), Patch(f.price, p.price),
                Patch(f.duration, p.duration), Some(RenderField(p.features)),
                Some(RenderField(p.perks)), Patch(f.imageUrl, p.imageUrl),
                Patch(f.popular, p.popular), Patch(f.isActive, p.isActive))
  }

  /** `onSubmit`: nothing is emitted for an invalid form; otherwise the plan
      with description and image defaulted to `''`, a zero price to 0, a zero
      duration to 1, the lists parsed line by line and the flags coerced. */
  function Submit(f: FormValue): (r: Option<SubscriptionData>)
    ensures r.Some? <==> Valid(f)
    ensures r.Some? ==> r.value.name == f.name.value
    ensures r.Some? ==> r.value.description == StrOr(f.description, "")
    ensures r.Some? ==> r.value.price == f.price.value && r.value.price >= 0
    ensures r.Some? ==> r.value.duration == f.duration.value && r.value.duration >= 1
    ensures r.Some? ==> r.value.features == ParseField(f.features)
    ensures r.Some? ==> r.value.perks == ParseField(f.perks)
    ensures r.Some? ==> r.value.imageUrl == StrOr(f.imageUrl, "")
    ensures r.Some? ==> r.value.popular == IsTrue(f.popular) && r.value.isActive == IsTrue(f.isActive)
  {
    if Valid(f) then
      Some(SubscriptionData(f.name.value, StrOr(f.description, ""), IntOr(f.price, 0),
                            IntOr(f.duration, 1), ParseField(f.features), ParseField(f.perks),
                            StrOr(f.imageUrl, ""), IsTrue(f.popular), IsTrue(f.isActive)))
    else None
  }

  /** Opening a plan in a fresh form and saving it straight away emits the
      same plan: lists of single non-blank lines come back intact, missing
      flags come back as `popular = false` and `isActive = true`. */
  lemma EditRoundTrip(plan: Subscription)
    requires Valid(Init(InitialForm(), Some(plan)))
    requires CleanField(plan.features) && CleanField(plan.perks)
    ensures Submit(Init(InitialForm(), Some(plan))).Some?
    ensures Submit(Init(InitialForm(), Some(plan))).value.features == plan.features.GetOr([])
    ensures Submit(Init(InitialForm(), Some(plan))).value.perks == plan.perks.GetOr([])
    ensures Submit(Init(InitialForm(), Some(plan))).value.name == plan.name
    ensures Submit(Init(InitialForm(), Some(plan))).value.description == plan.description.GetOr("")
    ensures Submit(Init(InitialForm(), Some(plan))).value.popular == IsTrue(plan.popular)
    ensures Submit(Init(InitialForm(), Some(plan))).value.isActive == DefaultTrue(plan.isActive)
  {
    FieldRoundTrip(plan.features);
    FieldRoundTrip(plan.perks);
  }
}
