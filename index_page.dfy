/** The top-level page: it owns the selected country and the search query,
    hands setters for them to the search box and the globe, and shows the
    culture card while a country is selected. */
module IndexPage {
  import opened Search
  import Culture

  /** The names the globe's markers report when clicked. */
  const GlobeNames: seq<string> := [
    "United States", "Brazil", "China", "India", "Egypt", "Japan", "Kenya", "Australia"
  ]

  /** Both inputs draw from one set of names: every globe marker is also
      offered by the search box. */
  lemma GlobeNamesSearchable()
    ensures forall n :: n in GlobeNames ==> n in Countries
  {
  }

  /** `null` or a name, as `useState(null)` later set to a string. */
  datatype Option<T> = None | Some(value: T)

  datatype PageState = PageState(selectedCountry: Option<string>, searchQuery: string)

  /** Nothing selected, empty query. */
  const Initial: PageState := PageState(None, "")

  /** What can happen to the page: the search text changes, the search box or
      the globe reports a country, or the card is closed. */
  datatype Event =
    | SearchChanged(text: string)
    | SearchSelected(name: string)
    | GlobeSelected(name: string)
    | CardClosed

  /** The page's reaction to one event. Both selection sources are wired to
      the same setter, `setSelectedCountry`. */
  function Step(s: PageState, e: Event): PageState {
    match e
    case SearchChanged(text) => s.(searchQuery := text)
    case SearchSelected(name) => s.(selectedCountry := Some(name))
    case GlobeSelected(name) => s.(selectedCountry := Some(name))
    case CardClosed => s.(selectedCountry := None)
  }

  /** The page's state after a sequence of events, oldest first. */
  function Run(s: PageState, events: seq<Event>): PageState
    decreases |events|
  {
    if events == [] then s else Run(Step(s, events[0]), events[1..])
  }

  /** `{selectedCountry && <CultureCard/>}`: a selection that is present and
      truthy, so not the empty string. */
  predicate CardShown(s: PageState) {
    s.selectedCountry.Some? && s.selectedCountry.value != ""
  }

  /** The card on screen, if any; its close buttons raise `CardClosed`. */
  function Card(s: PageState): (r: Option<Culture.CardView<Event>>)
    ensures r.Some? <==> CardShown(s)
    ensures r.Some? ==>
      r.value.heading == s.selectedCountry.value &&
      r.value.sheet == Culture.Lookup(s.selectedCountry.value)
    ensures r.Some? ==> forall b :: b in r.value.buttons ==> b.onClick == CardClosed
  {
    if CardShown(s) then Some(Culture.Render(s.selectedCountry.value, CardClosed)) else None
  }

  /** The page starts with no selection, an empty query and no card. */
  lemma InitialState()
    ensures Initial.selectedCountry == None && Initial.searchQuery == ""
    ensures Card(Initial) == None
  {
  }

  /** A pick in the search box and a click on the globe have the same effect:
      the reported name becomes the selection and nothing else changes. */
  lemma SelectionSourcesAgree(s: PageState, name: string)
    ensures Step(s, SearchSelected(name)) == Step(s, GlobeSelected(name))
    ensures Step(s, GlobeSelected(name)) == PageState(Some(name), s.searchQuery)
  {
  }

  /** Closing the card clears the selection, keeps the query, and hides the card. */
  lemma CloseResetsSelection(s: PageState)
    ensures Step(s, CardClosed) == PageState(None, s.searchQuery)
    ensures Card(Step(s, CardClosed)) == None
  {
  }

  /** Typing changes only the query, never the selection or the card. */
  lemma SearchChangeKeepsSelection(s: PageState, text: string)
    ensures Step(s, SearchChanged(text)) == PageState(s.selectedCountry, text)
    ensures Card(Step(s, SearchChanged(text))) == Card(s)
  {
  }

  /** After a selection the card shows exactly when the name is not empty. */
  lemma CardAfterSelection(s: PageState, name: string)
    ensures CardShown(Step(s, GlobeSelected(name))) <==> name != ""
  {
  }

  /** Every close button on a shown card leads to a page without a card. */
  lemma CardButtonsClose(s: PageState)
    requires CardShown(s)
    ensures forall b :: b in Card(s).value.buttons ==> Card(Step(s, b.onClick)) == None
  {
  }

  /** The page event each search-box request becomes: `onChange` sets only
      the query and `onCountrySelect` only the selection. */
  function FromSearchBar(cb: Callback): (e: Event)
    ensures forall s: PageState ::
              Step(s, e).selectedCountry == (if cb.CountrySelect? then Some(cb.country) else s.selectedCountry)
    ensures forall s: PageState ::
              Step(s, e).searchQuery == (if cb.QueryChange? then cb.text else s.searchQuery)
  {
    match cb
    case QueryChange(text) => SearchChanged(text)
    case CountrySelect(country) => SearchSelected(country)
  }

  /** A pick in the search box (its two requests, in order) leaves the name
      in the query and as the selection, and shows that country's card; every
      listed name is non-empty. */
  lemma SearchPick(s: PageState, country: string)
    requires country != ""
    ensures var t := Run(s, [FromSearchBar(QueryChange(country)), FromSearchBar(CountrySelect(country))]);
      t == PageState(Some(country), country) &&
      Card(t) == Some(Culture.Render(country, CardClosed))
  {
    var events := [SearchChanged(country), SearchSelected(country)];
    assert FromSearchBar(QueryChange(country)) == events[0];
    assert FromSearchBar(CountrySelect(country)) == events[1];
    var mid := Step(s, events[0]);
    assert events[1..] == [events[1]] && events[1..][1..] == [];
    assert Run(mid, events[1..]) == Run(Step(mid, events[1]), []);
  }

  /** The selection is nothing or one of the search box's names. */
  predicate SelectionListed(s: PageState) {
    s.selectedCountry.Some? ==> s.selectedCountry.value in Countries
  }

  /** An event the user interface can raise: the search box reports only
      entries of its list, and the globe only its markers' names. */
  predicate FromUi(e: Event) {
    match e
    case SearchSelected(name) => name in Countries
    case GlobeSelected(name) => name in GlobeNames
    case _ => true
  }

  /** The search box's requests become events the user interface can raise
      whenever every reported country is a listed name. `ClickEntry`
      promises this of the pair it sends, so a click raises only such
      events; typed text is always allowed. */
  lemma SearchBarRequestsFromUi(calls: seq<Callback>)
    requires forall i :: 0 <= i < |calls| && calls[i].CountrySelect? ==> calls[i].country in Countries
    ensures forall i :: 0 <= i < |calls| ==> FromUi(FromSearchBar(calls[i]))
  {
    forall i | 0 <= i < |calls| ensures FromUi(FromSearchBar(calls[i])) {
      match calls[i]
      case QueryChange(_) =>
      case CountrySelect(country) => assert FromSearchBar(calls[i]) == SearchSelected(country);
    }
  }

  /** Events from the user interface keep the selection among the listed names. */
  lemma {:induction false} RunKeepsSelectionListed(s: PageState, events: seq<Event>)
    requires SelectionListed(s)
    requires forall i :: 0 <= i < |events| ==> FromUi(events[i])
    ensures SelectionListed(Run(s, events))
    decreases |events|
  {
    if events != [] {
      GlobeNamesSearchable();
      RunKeepsSelectionListed(Step(s, events[0]), events[1..]);
    }
  }

  /** On every page reachable through the user interface, the card is shown
      exactly when a country is selected: no listed name is empty, so the
      truthiness guard only ever excludes "no selection". */
  lemma ReachableCardShown(events: seq<Event>)
    requires forall i :: 0 <= i < |events| ==> FromUi(events[i])
    ensures var t := Run(Initial, events);
      SelectionListed(t) && (CardShown(t) <==> t.selectedCountry.Some?)
  {
    RunKeepsSelectionListed(Initial, events);
    var t := Run(Initial, events);
    if t.selectedCountry.Some? {
      CountriesNotBlank();
    }
  }

  /** The page component's two pieces of state. */
  class Page {
    var selectedCountry: Option<string>
    var searchQuery: string

    function State(): PageState
      reads this
    {
      PageState(selectedCountry, searchQuery)
    }

    constructor ()
      ensures State() == Initial
    {
      selectedCountry := None;
      searchQuery := "";
    }

    /** `setSearchQuery`, passed to the search box as `onChange`. */
    method SetSearchQuery(text: string)
      modifies this
      ensures State() == Step(old(State()), SearchChanged(text))
      ensures searchQuery == text && selectedCountry == old(selectedCountry)
    {
      searchQuery := text;
    }

    /** `setSelectedCountry`, passed to both the search box and the globe as
        `onCountrySelect`. */
    method SetSelectedCountry(name: string)
      modifies this
      ensures State() == Step(old(State()), SearchSelected(name))
      ensures State() == Step(old(State()), GlobeSelected(name))
      ensures selectedCountry == Some(name) && searchQuery == old(searchQuery)
    {
      selectedCountry := Some(name);
    }

    /** The card's `onClose`. */
    method CloseCard()
      modifies this
      ensures State() == Step(old(State()), CardClosed)
      ensures selectedCountry == None && searchQuery == old(searchQuery)
    {
      selectedCountry := None;
    }

    /** Carries out one request from the search box. */
    method Deliver(cb: Callback)
      modifies this
      ensures State() == Step(old(State()), FromSearchBar(cb))
    {
      match cb
      case QueryChange(text) => SetSearchQuery(text);
      case CountrySelect(country) => SetSelectedCountry(country);
    }
  }
}
