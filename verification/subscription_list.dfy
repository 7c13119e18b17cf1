/** The subscription plans screen: it lists the plans with their missing
    fields filled in, shows the plan editor page inline for a new or an
    existing plan, saves, deletes and switches plans on and off, reloading
    after every successful write. The editor it embeds is the stand-alone
    page, which saves on its own and emits nothing, so what reaches
    `onSaveSubscription` is taken as an arbitrary draft. */
module SubscriptionList {
  import opened Values
  import opened Http
  import opened SubscriptionService
  import SubscriptionFormPage

  const LoadFailed := "Failed to load subscriptions. Please try again."

  datatype Screen = Screen(
    subscriptions: seq<Subscription>,
    loading: bool,
    error: Option<string>,
    showForm: bool,
    selected: Option<Subscription>)

  function Initial(): (s: Screen)
    ensures s.loading && s.subscriptions == [] && !s.showForm && s.selected.None?
  {
    Screen([], true, None, false, None)
  }

  /** A listed plan carries every field the table shows: both lists, the
      image, both flags and both timestamps. */
  predicate Normalised(p: Subscription) {
    p.features.Some? && p.perks.Some? && p.imageUrl.Some? && p.popular.Some?
    && p.isActive.Some? && p.createdAt.Some? && p.updatedAt.Some?
  }

  /** The fallbacks applied to each loaded plan; `now` is the ISO time stamp
      of the moment of loading. */
  function Normalise(p: Subscription, now: string): (r: Subscription)
    ensures Normalised(r)
    ensures r.backendId == p.backendId && r.name == p.name
    ensures r.description == p.description && r.price == p.price && r.duration == p.duration
    ensures r.features == Some(p.features.GetOr([])) && r.perks == Some(p.perks.GetOr([]))
    ensures r.imageUrl == Some(StrOr(p.imageUrl, ""))
    ensures r.popular == Some(IsTrue(p.popular))
    ensures r.isActive == Some(DefaultTrue(p.isActive))
    ensures r.createdAt == Some(StrOr(p.createdAt, now)) && r.updatedAt == Some(StrOr(p.updatedAt, now))
  {
    p.(features := Some(p.features.GetOr([])), perks := Some(p.perks.GetOr([])),
       imageUrl := Some(StrOr(p.imageUrl, "")), popular := Some(IsTrue(p.popular)),
       isActive := Some(DefaultTrue(p.isActive)),
       createdAt := Some(StrOr(p.createdAt, now)), updatedAt := Some(StrOr(p.updatedAt, now)))
  }

  /** Filling in twice at the same load time changes nothing more: every
      timestamp a first pass leaves is either the plan's own or `now`. */
  lemma NormaliseIdempotent(p: Subscription, now: string)
    ensures Normalise(Normalise(p, now), now) == Normalise(p, now)
  {
  }

  /** A plan that already carries every field keeps its values, except that a
      present but empty timestamp is replaced by `now`. */
  lemma NormaliseKeepsPresentFields(p: Subscription, now: string)
    requires Normalised(p) && Truthy(p.createdAt) && Truthy(p.updatedAt)
    ensures Normalise(p, now).features == p.features && Normalise(p, now).perks == p.perks
    ensures Normalise(p, now).popular == p.popular && Normalise(p, now).isActive == p.isActive
    ensures Normalise(p, now).createdAt == p.createdAt && Normalise(p, now).updatedAt == p.updatedAt
  {
    assert IsTrue(p.popular) == p.popular.value;
  }

  /** An inactive plan stays inactive; a plan without the flag is shown as active. */
  lemma ActiveFlagSurvives(p: Subscription, now: string)
    ensures Normalise(p, now).isActive == Some(false) <==> p.isActive == Some(false)
  {
  }

  function NormaliseAll(ps: seq<Subscription>, now: string): (r: seq<Subscription>)
    ensures |r| == |ps|
    ensures forall i :: 0 <= i < |ps| ==> r[i] == Normalise(ps[i], now)
  {
    seq(|ps|, i requires 0 <= i < |ps| => Normalise(ps[i], now))
  }

  /** `loadSubscriptions`, first half: the spinner comes on and the list is requested. */
  function LoadStart(s: Screen, apiUrl: string): (r: (Screen, Call<Body>))
    ensures r.0 == s.(loading := true)
    ensures r.1 == ListCall(apiUrl)
  {
    (s.(loading := true), ListCall(apiUrl))
  }

  /** `loadSubscriptions`, second half. An accepted envelope replaces the list
      by its plans filled in; a refused one sets the load error and keeps the
      old list; a failed request only stops the spinner. The error of an
      earlier load is never cleared. */
  function LoadFinish(s: Screen, now: string, outcome: Outcome<Envelope<seq<Subscription>>>): (r: Screen)
    ensures !r.loading
    ensures r.showForm == s.showForm && r.selected == s.selected
    ensures outcome.Next? && outcome.value.success && outcome.value.data.Some? ==>
      r == s.(loading := false, subscriptions := NormaliseAll(outcome.value.data.value, now))
    ensures outcome.Next? && !(outcome.value.success && outcome.value.data.Some?) ==>
      r == s.(loading := false, error := Some(LoadFailed))
    ensures outcome.Error? ==> r == s.(loading := false)
  {
    match outcome
    case Next(env) =>
      if env.success && env.data.Some? then
        s.(loading := false, subscriptions := NormaliseAll(env.data.value, now))
      else s.(loading := false, error := Some(LoadFailed))
    case Error(_) => s.(loading := false)
  }

  /** After an accepted load every listed plan is filled in. */
  lemma LoadedPlansNormalised(s: Screen, now: string, env: Envelope<seq<Subscription>>)
    requires env.success && env.data.Some?
    ensures forall i :: 0 <= i < |LoadFinish(s, now, Next(env)).subscriptions| ==>
      Normalised(LoadFinish(s, now, Next(env)).subscriptions[i])
  {
  }

  /** `onEdit`: the form opens on a copy of the plan. */
  function OnEdit(s: Screen, p: Subscription): (r: Screen)
    ensures r.showForm && r.selected == Some(p)
    ensures r.subscriptions == s.subscriptions && r.loading == s.loading && r.error == s.error
  {
    s.(selected := Some(p), showForm := true)
  }

  /** `onAddNew`: the form opens empty. */
  function OnAddNew(s: Screen): (r: Screen)
    ensures r.showForm && r.selected.None?
    ensures r.subscriptions == s.subscriptions && r.loading == s.loading && r.error == s.error
  {
    s.(selected := None, showForm := true)
  }

  /** `closeForm`. */
  function CloseForm(s: Screen): (r: Screen)
    ensures !r.showForm && r.selected.None?
    ensures r.subscriptions == s.subscriptions && r.loading == s.loading && r.error == s.error
  {
    s.(showForm := false, selected := None)
  }

  /** Opening the form and closing it again, for either kind of opening, leaves
      the screen as a closed form finds it. */
  lemma CloseUndoesOpen(s: Screen, p: Subscription)
    ensures CloseForm(OnEdit(s, p)) == CloseForm(s)
    ensures CloseForm(OnAddNew(s)) == CloseForm(s)
  {
  }

  /** `onDelete`: the plan is deleted without a confirmation, by `_id` or `''`. */
  function DeleteStart(apiUrl: string, p: Subscription): (c: Call<Body>)
    ensures c.verb == DELETE && c.body.None?
    ensures Truthy(p.backendId) ==> c == DeleteCall(apiUrl, p.backendId.value)
    ensures !Truthy(p.backendId) ==> c.url == apiUrl + "/admin/subscriptions/"
  {
    DeleteCall(apiUrl, StrOr(p.backendId, ""))
  }

  /** Whether a write reply reports success. */
  predicate Succeeded<T>(outcome: Outcome<Envelope<T>>) {
    outcome.Next? && outcome.value.success
  }

  /** After a delete: a reported success reloads the list; anything else only logs. */
  function DeleteFinish(s: Screen, apiUrl: string, outcome: Outcome<Envelope<()>>): (r: (Screen, Option<Call<Body>>))
    ensures r.1.Some? <==> Succeeded(outcome)
    ensures Succeeded(outcome) ==> r == (LoadStart(s, apiUrl).0, Some(ListCall(apiUrl)))
    ensures !Succeeded(outcome) ==> r.0 == s
  {
    if Succeeded(outcome) then (LoadStart(s, apiUrl).0, Some(ListCall(apiUrl))) else (s, None)
  }

  /** `onToggleStatus`, first half: nothing without an `_id`; otherwise the
      opposite of the shown flag is sent (a missing flag counts as off). */
  function ToggleStart(apiUrl: string, p: Subscription): (r: Option<(Call<Body>, bool)>)
    ensures r.Some? <==> Truthy(p.backendId)
    ensures r.Some? ==> r.value.1 == !IsTrue(p.isActive)
    ensures r.Some? ==> r.value.0 == ToggleCall(apiUrl, p.backendId.value, r.value.1)
  {
    if Truthy(p.backendId) then
      var next := !IsTrue(p.isActive);
      Some((ToggleCall(apiUrl, p.backendId.value, next), next))
    else None
  }

  /** `onToggleStatus`, second half: on a reported success the toggled plan,
      the `i`-th of the list, shows the new flag; nothing else changes. */
  function ToggleFinish(s: Screen, i: int, newStatus: bool, outcome: Outcome<Envelope<Subscription>>): (r: Screen)
    ensures |r.subscriptions| == |s.subscriptions|
    ensures Succeeded(outcome) && 0 <= i < |s.subscriptions| ==>
      r.subscriptions == s.subscriptions[i := s.subscriptions[i].(isActive := Some(newStatus))]
    ensures !(Succeeded(outcome) && 0 <= i < |s.subscriptions|) ==> r == s
    ensures r.loading == s.loading && r.error == s.error && r.showForm == s.showForm
  {
    if Succeeded(outcome) && 0 <= i < |s.subscriptions| then
      s.(subscriptions := s.subscriptions[i := s.subscriptions[i].(isActive := Some(newStatus))])
    else s
  }

  /** Toggling a plan with an `_id` twice, both times successfully, shows the
      flag it started with once that flag was filled in. */
  lemma ToggleTwiceRestores(s: Screen, apiUrl: string, i: int, ok1: Envelope<Subscription>, ok2: Envelope<Subscription>)
    requires 0 <= i < |s.subscriptions|
    requires Truthy(s.subscriptions[i].backendId) && s.subscriptions[i].isActive.Some?
    requires ok1.success && ok2.success
    ensures ToggleStart(apiUrl, s.subscriptions[i]).Some?
    ensures var s1 := ToggleFinish(s, i, ToggleStart(apiUrl, s.subscriptions[i]).value.1, Next(ok1));
            ToggleStart(apiUrl, s1.subscriptions[i]).Some?
    ensures var s1 := ToggleFinish(s, i, ToggleStart(apiUrl, s.subscriptions[i]).value.1, Next(ok1));
            var s2 := ToggleFinish(s1, i, ToggleStart(apiUrl, s1.subscriptions[i]).value.1, Next(ok2));
            s2 == s
  {
    var p := s.subscriptions[i];
    var s1 := ToggleFinish(s, i, ToggleStart(apiUrl, p).value.1, Next(ok1));
    assert s1.subscriptions[i] == p.(isActive := Some(!p.isActive.value));
    var s2 := ToggleFinish(s1, i, ToggleStart(apiUrl, s1.subscriptions[i]).value.1, Next(ok2));
    assert s2.subscriptions[i] == p;
    assert s2.subscriptions == s.subscriptions;
  }

  /** The argument of `onSaveSubscription`: a plan without `_id`, `id` and
      timestamps whose fields the type promises but the screen does not trust. */
  datatype Draft = Draft(
    name: string,
    description: Option<string>,
    price: Option<int>,
    duration: Option<int>,
    features: Option<seq<string>>,
    perks: Option<seq<string>>,
    imageUrl: Option<string>,
    popular: Option<bool>,
    isActive: Option<bool>)

  /** The defaults `onSaveSubscription` applies before sending. */
  function Prepare(d: Draft): (r: SubscriptionData)
    ensures r.name == d.name
    ensures r.description == StrOr(d.description, "") && r.imageUrl == StrOr(d.imageUrl, "")
    ensures r.price == IntOr(d.price, 0) && r.duration == IntOr(d.duration, 1)
    ensures r.duration != 0
    ensures r.features == d.features.GetOr([]) && r.perks == d.perks.GetOr([])
    ensures r.popular == IsTrue(d.popular) && r.isActive == DefaultTrue(d.isActive)
  {
    SubscriptionData(d.name, StrOr(d.description, ""), IntOr(d.price, 0), IntOr(d.duration, 1),
                     d.features.GetOr([]), d.perks.GetOr([]), StrOr(d.imageUrl, ""),
                     IsTrue(d.popular), DefaultTrue(d.isActive))
  }

  /** A complete plan body seen as a draft: every field present, with the
      plan's value. */
  function AsDraft(d: SubscriptionData): (r: Draft)
    ensures r.name == d.name && r.description == Some(d.description)
    ensures r.price == Some(d.price) && r.duration == Some(d.duration)
    ensures r.features == Some(d.features) && r.perks == Some(d.perks)
    ensures r.imageUrl == Some(d.imageUrl)
    ensures r.popular == Some(d.popular) && r.isActive == Some(d.isActive)
  {
    Draft(d.name, Some(d.description), Some(d.price), Some(d.duration), Some(d.features),
          Some(d.perks), Some(d.imageUrl), Some(d.popular), Some(d.isActive))
  }

  /** The screen's defaults never alter the body the plan editor page builds
      from a form it accepts: that body already has every field, and the
      page demands a duration of at least 1. */
  lemma PageBodyNeedsNoDefaults(f: SubscriptionFormPage.FormValue)
    requires SubscriptionFormPage.Valid(f)
    ensures Prepare(AsDraft(SubscriptionFormPage.Data(f))) == SubscriptionFormPage.Data(f)
  {
  }

  /** A zero duration is the one value of a complete draft the defaults change. */
  lemma ZeroDurationBecomesOne(d: SubscriptionData)
    ensures Prepare(AsDraft(d)) == d <==> d.duration != 0
    ensures d.duration == 0 ==> Prepare(AsDraft(d)) == d.(duration := 1)
  {
  }

  /** `onSaveSubscription`, first half: an update of the selected plan (by
      `_id` or `''`) when the form was opened on one, a create otherwise. */
  function SaveStart(s: Screen, apiUrl: string, d: Draft): (c: Call<Body>)
    ensures c.body == Some(Plan(Prepare(d)))
    ensures c.verb == PUT <==> s.selected.Some?
    ensures c.verb == POST <==> s.selected.None?
    ensures s.selected.Some? ==> c == UpdateCall(apiUrl, StrOr(s.selected.value.backendId, ""), Prepare(d))
    ensures s.selected.None? ==> c == CreateCall(apiUrl, Prepare(d))
  {
    match s.selected
    case Some(p) => UpdateCall(apiUrl, StrOr(p.backendId, ""), Prepare(d))
    case None => CreateCall(apiUrl, Prepare(d))
  }

  /** `onSaveSubscription`, second half: a reported success reloads the list
      and closes the form; otherwise the form stays open and nothing changes. */
  function SaveFinish(s: Screen, apiUrl: string, outcome: Outcome<Envelope<Subscription>>): (r: (Screen, Option<Call<Body>>))
    ensures r.1.Some? <==> Succeeded(outcome)
    ensures Succeeded(outcome) ==> r.1 == Some(ListCall(apiUrl))
    ensures Succeeded(outcome) ==> r.0.loading && !r.0.showForm && r.0.selected.None?
    ensures Succeeded(outcome) ==> r.0.subscriptions == s.subscriptions && r.0.error == s.error
    ensures !Succeeded(outcome) ==> r.0 == s
  {
    if Succeeded(outcome) then (CloseForm(LoadStart(s, apiUrl).0), Some(ListCall(apiUrl)))
    else (s, None)
  }

  /** A delete reported successful, followed by an accepted reload, shows the
      server's list filled in, with the form as it was. */
  lemma DeleteThenReload(s: Screen, apiUrl: string, now: string,
                         deleted: Envelope<()>, list: Envelope<seq<Subscription>>)
    requires deleted.success && list.success && list.data.Some?
    ensures DeleteFinish(s, apiUrl, Next(deleted)).1 == Some(ListCall(apiUrl))
    ensures LoadFinish(DeleteFinish(s, apiUrl, Next(deleted)).0, now, Next(list))
      == s.(loading := false, subscriptions := NormaliseAll(list.data.value, now))
  {
  }

  /** Editing a plan and saving it sends the update to that plan, adding one
      sends a create; once the save is reported and the reload accepted, the
      form is closed and the list is the server's, filled in. A save that is
      not reported keeps the form open on the same plan. */
  lemma SaveThenReload(s: Screen, apiUrl: string, now: string, p: Subscription, d: Draft,
                       saved: Outcome<Envelope<Subscription>>, list: Envelope<seq<Subscription>>)
    requires list.success && list.data.Some?
    ensures SaveStart(OnEdit(s, p), apiUrl, d) == UpdateCall(apiUrl, StrOr(p.backendId, ""), Prepare(d))
    ensures SaveStart(OnAddNew(s), apiUrl, d) == CreateCall(apiUrl, Prepare(d))
    ensures Succeeded(saved) ==>
      LoadFinish(SaveFinish(OnEdit(s, p), apiUrl, saved).0, now, Next(list))
        == CloseForm(s).(loading := false, subscriptions := NormaliseAll(list.data.value, now))
    ensures Succeeded(saved) ==>
      LoadFinish(SaveFinish(OnAddNew(s), apiUrl, saved).0, now, Next(list))
        == CloseForm(s).(loading := false, subscriptions := NormaliseAll(list.data.value, now))
    ensures !Succeeded(saved) ==> SaveFinish(OnEdit(s, p), apiUrl, saved) == (OnEdit(s, p), None)
  {
  }
}
