/** The countries-and-languages overview: two cards whose counts are loaded
    by two requests in flight at once, with a counter of completed requests
    deciding when the spinner goes off. */
module CountriesLanguagesOverview {
  import opened Values
  import opened Http
  import opened Items
  import CountriesLanguagesService

  datatype Card = Card(title: string, count: nat, route: string, cardType: string)

  /** The screen; `completed` is the counter of finished requests of the
      current load. */
  datatype Screen = Screen(cards: seq<Card>, isLoading: bool, error: Option<string>, completed: nat)

  function InitialCards(): (cs: seq<Card>)
    ensures |cs| == 2
    ensures cs[0].cardType == "countries" && cs[1].cardType == "languages"
    ensures cs[0].count == 0 && cs[1].count == 0
  {
    [Card("Countries", 0, "countries", "countries"), Card("Languages", 0, "languages", "languages")]
  }

  function Initial(): (s: Screen)
    ensures s.isLoading && s.error.None? && |s.cards| == 2
  {
    Screen(InitialCards(), true, None, 0)
  }

  /** A card of type `'countries'` is loaded from the country list; any other
      from the language list. */
  function KindOf(card: Card): (k: CountriesLanguagesService.Kind)
    ensures k == CountriesLanguagesService.Country <==> card.cardType == "countries"
  {
    CountriesLanguagesService.KindOfType(card.cardType)
  }

  /** `loadContentCounts`, first half: the spinner comes on, the counter
      starts at 0 and one list request goes out per card, in card order. */
  function LoadStart(s: Screen, apiUrl: string): (r: (Screen, seq<Call<ItemData>>))
    ensures r.0 == s.(isLoading := true, completed := 0)
    ensures |r.1| == |s.cards|
    ensures forall i :: 0 <= i < |s.cards| ==>
      r.1[i] == CountriesLanguagesService.ListCall(apiUrl, KindOf(s.cards[i]))
  {
    (s.(isLoading := true, completed := 0),
     seq(|s.cards|, i requires 0 <= i < |s.cards| => CountriesLanguagesService.ListCall(apiUrl, KindOf(s.cards[i]))))
  }

  /** `Failed to load ${card.title} count`. */
  function FailureMessage(card: Card): string {
    "Failed to load " + card.title + " count"
  }

  /** The request of card `index` has finished: the card shows the number of
      records (0 on failure), a failure names the card in `error`, the counter
      goes up by one and the spinner goes off once it reaches the number of
      cards. */
  function Complete(s: Screen, index: nat, outcome: Outcome<seq<Item>>): (r: Screen)
    requires index < |s.cards|
    ensures |r.cards| == |s.cards|
    ensures r.completed == s.completed + 1
    ensures outcome.Next? ==> r.cards == s.cards[index := s.cards[index].(count := |outcome.value|)]
    ensures outcome.Error? ==> r.cards == s.cards[index := s.cards[index].(count := 0)]
    ensures outcome.Next? ==> r.error == s.error
    ensures outcome.Error? ==> r.error == Some(FailureMessage(s.cards[index]))
    ensures r.isLoading <==> s.isLoading && r.completed != |s.cards|
  {
    var count := if outcome.Next? then |outcome.value| else 0;
    var error := if outcome.Next? then s.error else Some(FailureMessage(s.cards[index]));
    var completed := s.completed + 1;
    Screen(s.cards[index := s.cards[index].(count := count)],
           if completed == |s.cards| then false else s.isLoading, error, completed)
  }

  /** While a load is running the spinner is on exactly until every card's
      request has finished. */
  predicate Consistent(s: Screen) {
    s.completed <= |s.cards| && (s.isLoading <==> s.completed < |s.cards|)
  }

  /** A load of at least one card starts consistent, and each completion,
      of a request still outstanding, keeps it so. */
  lemma LoadingTracksCounter(s: Screen, apiUrl: string, index: nat, outcome: Outcome<seq<Item>>)
    requires index < |s.cards|
    ensures |s.cards| > 0 ==> Consistent(LoadStart(s, apiUrl).0)
    ensures Consistent(s) && s.completed < |s.cards| ==> Consistent(Complete(s, index, outcome))
  {
  }

  /** Once set, the error survives every later completion. */
  lemma ErrorPersists(s: Screen, index: nat, outcome: Outcome<seq<Item>>)
    requires index < |s.cards| && s.error.Some?
    ensures Complete(s, index, outcome).error.Some?
  {
  }

  /** The two requests may finish in either order: the counts, the counter,
      the spinner and whether an error is shown come out the same. */
  lemma OrderIndependent(s: Screen, i: nat, j: nat, a: Outcome<seq<Item>>, b: Outcome<seq<Item>>)
    requires i < |s.cards| && j < |s.cards| && i != j
    ensures Complete(Complete(s, i, a), j, b).cards == Complete(Complete(s, j, b), i, a).cards
    ensures Complete(Complete(s, i, a), j, b).completed == Complete(Complete(s, j, b), i, a).completed
    ensures Complete(Complete(s, i, a), j, b).isLoading == Complete(Complete(s, j, b), i, a).isLoading
    ensures Complete(Complete(s, i, a), j, b).error.Some? == Complete(Complete(s, j, b), i, a).error.Some?
    ensures a.Next? && b.Next? ==> Complete(Complete(s, i, a), j, b).error == s.error
  {
  }

  /** After a load of the two standard cards and both completions, in any
      order, the spinner is off and each card shows its list's length, or 0
      for a failed request. */
  lemma BothFinished(apiUrl: string, countries: Outcome<seq<Item>>, languages: Outcome<seq<Item>>)
    ensures var s := LoadStart(Initial(), apiUrl).0;
            var r := Complete(Complete(s, 0, countries), 1, languages);
            !r.isLoading
            && r.cards[0].count == (if countries.Next? then |countries.value| else 0)
            && r.cards[1].count == (if languages.Next? then |languages.value| else 0)
    ensures var s := LoadStart(Initial(), apiUrl).0;
            var r := Complete(s, 0, countries);
            r.isLoading
  {
  }
}
