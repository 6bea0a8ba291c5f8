/**
 * The session of the React client (frontend/src/App.js): six state slots,
 * the token kept in localStorage and the `code` query parameter of the
 * page's location, changed by the component's effects and handlers.
 *
 * Every asynchronous handler is split at its `await`: a "begin" step runs the
 * synchronous part and records one more request in flight; a later
 * "settled" step takes the request's outcome (resolved or rejected), which
 * the model receives as a parameter, and runs the rest. Requests in flight
 * are counted per kind, so their responses may arrive in any order, and no
 * step checks whether a response is stale, as in the source.
 *
 * The datatype State and the transition functions below are the
 * specification; the class App holds the same slots as mutable fields and
 * its methods are proved to perform exactly these transitions.
 */
module Frontend {
  import opened Wrappers

  /** A pin of the feed: its id, its title and `images.orig.url`. */
  datatype Pin = Pin(id: int, title: string, imageUrl: string)

  /** One shopping result as the search endpoint returns it. */
  datatype SearchResult = SearchResult(title: string, link: string, image: string)

  /** How an axios request settles: resolved with the response data, or rejected. */
  datatype Outcome<T> = Resolved(data: T) | Rejected

  const ConnectFailedMessage: string := "Failed to connect to Pinterest. Please try again."
  const AuthFailedMessage: string := "Failed to authenticate with Pinterest. Please try again."

  /** The three pins that fetchPinterestFeed installs, whatever the request's outcome. */
  const MockPins: seq<Pin> := [
    Pin(1, "Fashion Outfit 1", "https://images.unsplash.com/photo-1552374196-c4e7ffc6e126?w=400"),
    Pin(2, "Fashion Outfit 2", "https://images.unsplash.com/photo-1507003211169-0a1dd7228f2d?w=400"),
    Pin(3, "Fashion Outfit 3", "https://images.unsplash.com/photo-1544005313-94ddf0286df2?w=400")
  ]

  /** The two results that a failed product search installs. */
  const MockResults: seq<SearchResult> := [
    SearchResult("Similar Fashion Item", "https://www.amazon.com/s?k=fashion", "https://via.placeholder.com/150"),
    SearchResult("Style Inspiration", "https://www.etsy.com/search?q=fashion", "https://via.placeholder.com/150")
  ]

  /** JavaScript truthiness of a string that may be null: present and non-empty. */
  predicate Truthy(v: Option<string>)
  {
    v.Some? && v.value != ""
  }

  /** The six React state slots. */
  datatype Slots = Slots(
    isAuthenticated: bool,
    pins: seq<Pin>,
    selectedImage: Option<string>,
    searchResults: seq<SearchResult>,
    loading: bool,
    error: string)

  /** The slots' initial values passed to useState. */
  const InitialSlots: Slots := Slots(false, [], None, [], false, "")

  /**
   * The whole client state: the slots, the stored token, the location's code,
   * the value of isAuthenticated that the callback effect last ran with, and
   * the number of requests of each kind still in flight.
   */
  datatype State = State(
    isAuthenticated: bool,
    pins: seq<Pin>,
    selectedImage: Option<string>,
    searchResults: seq<SearchResult>,
    loading: bool,
    error: string,
    storedToken: Option<string>,
    locationCode: Option<string>,
    authSeenByEffect: bool,
    connectsInFlight: nat,
    exchangesInFlight: nat,
    feedsInFlight: nat,
    searchesInFlight: nat)
  {
    function SlotValues(): Slots
    {
      Slots(isAuthenticated, pins, selectedImage, searchResults, loading, error)
    }

    function Pending(): Requests
    {
      Requests(connectsInFlight, exchangesInFlight, feedsInFlight, searchesInFlight)
    }

    /** The stored token, the location's code and the effect's memory. */
    function Browser(): (Option<string>, Option<string>, bool)
    {
      (storedToken, locationCode, authSeenByEffect)
    }
  }

  /** The number of requests of each kind in flight. */
  datatype Requests = Requests(connects: nat, exchanges: nat, feeds: nat, searches: nat)

  // ---------------------------------------------------------------------------
  // Transitions
  //
  // Each one states its effect on the six slots, on the requests in flight
  // and on the browser state (stored token, location code, effect memory).
  // ---------------------------------------------------------------------------

  /** fetchPinterestFeed up to its `await`: loading is switched on and the request is sent. */
  function BeginFeedFetch(s: State): (r: State)
    ensures r.SlotValues() == s.SlotValues().(loading := true)
    ensures r.Pending() == s.Pending().(feeds := s.feedsInFlight + 1)
    ensures r.Browser() == s.Browser()
  {
    s.(loading := true, feedsInFlight := s.feedsInFlight + 1)
  }

  /**
   * The first render and its two effects, in order: the token check, which
   * starts a feed fetch when a token is stored, and the callback check, which
   * reads isAuthenticated as it was at that render (false) and starts the
   * code exchange when the location holds a code.
   */
  function Mount(stored: Option<string>, code: Option<string>): (r: State)
    ensures Truthy(stored) ==> r.SlotValues() == InitialSlots.(isAuthenticated := true, loading := true)
    ensures !Truthy(stored) ==> r.SlotValues() == InitialSlots
    ensures r.Pending() == Requests(0, if Truthy(code) then 1 else 0, if Truthy(stored) then 1 else 0, 0)
    ensures r.Browser() == (stored, code, false)
  {
    var initial := State(false, [], None, [], false, "", stored, code, false, 0, 0, 0, 0);
    var afterInit := if Truthy(stored) then BeginFeedFetch(initial.(isAuthenticated := true)) else initial;
    if Truthy(code) then afterInit.(exchangesInFlight := 1) else afterInit
  }

  /**
   * The callback effect, re-run because isAuthenticated changed since its
   * last run: it starts an exchange only for a code while unauthenticated.
   */
  function RunCallbackEffect(s: State): (r: State)
    ensures r.SlotValues() == s.SlotValues()
    ensures r.Pending() == s.Pending().(exchanges :=
      if Truthy(s.locationCode) && !s.isAuthenticated then s.exchangesInFlight + 1 else s.exchangesInFlight)
    ensures r.Browser() == (s.storedToken, s.locationCode, s.isAuthenticated)
  {
    var s' := s.(authSeenByEffect := s.isAuthenticated);
    if Truthy(s.locationCode) && !s.isAuthenticated then s'.(exchangesInFlight := s.exchangesInFlight + 1)
    else s'
  }

  /** handleAuth up to its `await`: the auth-URL request is sent and no slot changes. */
  function BeginConnect(s: State): (r: State)
    ensures r.SlotValues() == s.SlotValues()
    ensures r.Pending() == s.Pending().(connects := s.connectsInFlight + 1)
    ensures r.Browser() == s.Browser()
  {
    s.(connectsInFlight := s.connectsInFlight + 1)
  }

  /** handleAuth after the auth-URL request settles: only a failure shows in the slots. */
  function ConnectSettled(s: State, outcome: Outcome<string>): (r: State)
    requires s.connectsInFlight > 0
    ensures outcome.Resolved? ==> r.SlotValues() == s.SlotValues()
    ensures outcome.Rejected? ==> r.SlotValues() == s.SlotValues().(error := ConnectFailedMessage)
    ensures r.Pending() == s.Pending().(connects := s.connectsInFlight - 1)
    ensures r.Browser() == s.Browser()
  {
    var s' := s.(connectsInFlight := s.connectsInFlight - 1);
    match outcome
    case Resolved(_) => s'
    case Rejected => s'.(error := ConnectFailedMessage)
  }

  /** Where handleAuth sends the browser: the returned auth_url, on success only. */
  function ConnectNavigation(outcome: Outcome<string>): (target: Option<string>)
    ensures target.Some? <==> outcome.Resolved?
    ensures outcome.Resolved? ==> target.value == outcome.data
  {
    match outcome
    case Resolved(authUrl) => Some(authUrl)
    case Rejected => None
  }

  /**
   * handleOAuthCallback after the code exchange settles; the data is the
   * response's access_token. A truthy token is stored, the client becomes
   * authenticated, a feed fetch starts and the code leaves the location; a
   * falsy token changes nothing; a failure shows only in error.
   */
  function ExchangeSettled(s: State, outcome: Outcome<Option<string>>): (r: State)
    requires s.exchangesInFlight > 0
    ensures outcome.Resolved? && Truthy(outcome.data) ==>
      && r.SlotValues() == s.SlotValues().(isAuthenticated := true, loading := true)
      && r.Pending() == s.Pending().(exchanges := s.exchangesInFlight - 1, feeds := s.feedsInFlight + 1)
      && r.Browser() == (outcome.data, None, s.authSeenByEffect)
    ensures outcome.Resolved? && !Truthy(outcome.data) ==>
      && r.SlotValues() == s.SlotValues()
      && r.Pending() == s.Pending().(exchanges := s.exchangesInFlight - 1)
      && r.Browser() == s.Browser()
    ensures outcome.Rejected? ==>
      && r.SlotValues() == s.SlotValues().(error := AuthFailedMessage)
      && r.Pending() == s.Pending().(exchanges := s.exchangesInFlight - 1)
      && r.Browser() == s.Browser()
  {
    var s' := s.(exchangesInFlight := s.exchangesInFlight - 1);
    match outcome
    case Rejected => s'.(error := AuthFailedMessage)
    case Resolved(token) =>
      if Truthy(token) then
        BeginFeedFetch(s'.(storedToken := token, isAuthenticated := true)).(locationCode := None)
      else s'
  }

  /**
   * fetchPinterestFeed after its request settles, whatever the outcome: the
   * pins become the three placeholder pins, with ids 1, 2 and 3, and loading
   * goes off; no other slot changes.
   */
  function FeedSettled(s: State, outcome: Outcome<()>): (r: State)
    requires s.feedsInFlight > 0
    ensures r.SlotValues() == s.SlotValues().(pins := MockPins, loading := false)
    ensures |r.pins| == 3 && r.pins[0].id == 1 && r.pins[1].id == 2 && r.pins[2].id == 3
    ensures r.Pending() == s.Pending().(feeds := s.feedsInFlight - 1)
    ensures r.Browser() == s.Browser()
  {
    s.(pins := MockPins, loading := false, feedsInFlight := s.feedsInFlight - 1)
  }

  /** handleImageClick up to its `await`: the image is selected and loading goes on; the results stay. */
  function BeginSearch(s: State, url: string): (r: State)
    ensures r.SlotValues() == s.SlotValues().(selectedImage := Some(url), loading := true)
    ensures r.Pending() == s.Pending().(searches := s.searchesInFlight + 1)
    ensures r.Browser() == s.Browser()
  {
    s.(selectedImage := Some(url), loading := true, searchesInFlight := s.searchesInFlight + 1)
  }

  /**
   * handleImageClick after the product search settles: the results are the
   * response's on success and the two placeholders on failure, and loading
   * goes off; no other slot changes.
   */
  function SearchSettled(s: State, outcome: Outcome<seq<SearchResult>>): (r: State)
    requires s.searchesInFlight > 0
    ensures outcome.Resolved? ==> r.SlotValues() == s.SlotValues().(searchResults := outcome.data, loading := false)
    ensures outcome.Rejected? ==> r.SlotValues() == s.SlotValues().(searchResults := MockResults, loading := false)
    ensures r.Pending() == s.Pending().(searches := s.searchesInFlight - 1)
    ensures r.Browser() == s.Browser()
  {
    var results := match outcome
      case Resolved(r) => r
      case Rejected => MockResults;
    s.(searchResults := results, loading := false, searchesInFlight := s.searchesInFlight - 1)
  }

  /**
   * handleDisconnect: the stored token is removed and every slot but loading
   * returns to its initial value; loading, the requests in flight, the
   * location's code and the effect's memory are left alone.
   */
  function Disconnect(s: State): (r: State)
    ensures r.SlotValues() == InitialSlots.(loading := s.loading)
    ensures r.Pending() == s.Pending()
    ensures r.Browser() == (None, s.locationCode, s.authSeenByEffect)
  {
    s.(storedToken := None, isAuthenticated := false, pins := [], selectedImage := None,
       searchResults := [], error := "")
  }

  /** The Dismiss button's handler: error becomes '' and nothing else changes. */
  function DismissError(s: State): (r: State)
    ensures r.SlotValues() == s.SlotValues().(error := "")
    ensures r.Pending() == s.Pending()
    ensures r.Browser() == s.Browser()
  {
    s.(error := "")
  }

  // ---------------------------------------------------------------------------
  // Events and what the page offers
  // ---------------------------------------------------------------------------

  datatype Event =
    | CallbackEffectRuns
    | ClickConnect
    | ConnectResponse(authUrl: Outcome<string>)
    | ExchangeResponse(accessToken: Outcome<Option<string>>)
    | FeedResponse(feed: Outcome<()>)
    | ClickImage(url: string)
    | SearchResponse(results: Outcome<seq<SearchResult>>)
    | ClickDisconnect
    | ClickDismiss

  /** A pin image with this URL is on the page and can be clicked. */
  predicate ShowsImage(s: State, url: string)
  {
    s.isAuthenticated && exists i :: 0 <= i < |s.pins| && s.pins[i].imageUrl == url
  }

  /**
   * When each event can happen: the effect re-runs after isAuthenticated
   * changed; Connect is shown only when unauthenticated and Disconnect only
   * when authenticated; Dismiss only while an error is shown; a response
   * only for a request in flight.
   */
  predicate Enabled(s: State, e: Event)
  {
    match e
    case CallbackEffectRuns => s.isAuthenticated != s.authSeenByEffect
    case ClickConnect => !s.isAuthenticated
    case ConnectResponse(_) => s.connectsInFlight > 0
    case ExchangeResponse(_) => s.exchangesInFlight > 0
    case FeedResponse(_) => s.feedsInFlight > 0
    case ClickImage(url) => ShowsImage(s, url)
    case SearchResponse(_) => s.searchesInFlight > 0
    case ClickDisconnect => s.isAuthenticated
    case ClickDismiss => s.error != ""
  }

  function Step(s: State, e: Event): State
    requires Enabled(s, e)
  {
    match e
    case CallbackEffectRuns => RunCallbackEffect(s)
    case ClickConnect => BeginConnect(s)
    case ConnectResponse(o) => ConnectSettled(s, o)
    case ExchangeResponse(o) => ExchangeSettled(s, o)
    case FeedResponse(o) => FeedSettled(s, o)
    case ClickImage(url) => BeginSearch(s, url)
    case SearchResponse(o) => SearchSettled(s, o)
    case ClickDisconnect => Disconnect(s)
    case ClickDismiss => DismissError(s)
  }

  /** Runs a sequence of events; None as soon as one of them is not enabled. */
  function Run(s: State, events: seq<Event>): Option<State>
    decreases |events|
  {
    if |events| == 0 then Some(s)
    else if Enabled(s, events[0]) then Run(Step(s, events[0]), events[1..])
    else None
  }

  // ---------------------------------------------------------------------------
  // The session invariant
  // ---------------------------------------------------------------------------

  /** The image URLs of the placeholder pins. */
  const MockImageUrls: seq<string> := [MockPins[0].imageUrl, MockPins[1].imageUrl, MockPins[2].imageUrl]

  /**
   * What holds in every reachable state: the client is authenticated exactly
   * when a usable token is stored; the feed is empty or the placeholder pins;
   * loading is on only while a feed fetch or a search is in flight; the error
   * is empty or one of the two messages; a selected image is a placeholder
   * pin's image.
   */
  predicate Invariant(s: State)
  {
    && (s.isAuthenticated <==> Truthy(s.storedToken))
    && (s.pins == [] || s.pins == MockPins)
    && (s.loading ==> s.feedsInFlight + s.searchesInFlight > 0)
    && (s.error == "" || s.error == ConnectFailedMessage || s.error == AuthFailedMessage)
    && (s.selectedImage.Some? ==> s.selectedImage.value in MockImageUrls)
  }

  lemma MountEstablishesInvariant(stored: Option<string>, code: Option<string>)
    ensures Invariant(Mount(stored, code))
  {
  }

  lemma CallbackEffectPreservesInvariant(s: State)
    requires Invariant(s)
    ensures Invariant(RunCallbackEffect(s))
  {
  }

  lemma ConnectPreservesInvariant(s: State, outcome: Outcome<string>)
    requires Invariant(s)
    ensures Invariant(BeginConnect(s))
    ensures s.connectsInFlight > 0 ==> Invariant(ConnectSettled(s, outcome))
  {
  }

  lemma ExchangePreservesInvariant(s: State, outcome: Outcome<Option<string>>)
    requires Invariant(s) && s.exchangesInFlight > 0
    ensures Invariant(ExchangeSettled(s, outcome))
  {
  }

  /** Storing a usable token together with isAuthenticated keeps the invariant. */
  lemma StoringTokenKeepsInvariant(s: State, token: Option<string>)
    requires Invariant(s) && Truthy(token)
    ensures Invariant(s.(storedToken := token, isAuthenticated := true))
  {
  }

  lemma FeedPreservesInvariant(s: State, outcome: Outcome<()>)
    requires Invariant(s) && s.feedsInFlight > 0
    ensures Invariant(FeedSettled(s, outcome))
  {
  }

  /** Only an image on the page can be selected, so the selection is a placeholder pin's image. */
  lemma SearchPreservesInvariant(s: State, url: string, outcome: Outcome<seq<SearchResult>>)
    requires Invariant(s)
    ensures ShowsImage(s, url) ==> Invariant(BeginSearch(s, url))
    ensures s.searchesInFlight > 0 ==> Invariant(SearchSettled(s, outcome))
  {
    if ShowsImage(s, url) {
      var i :| 0 <= i < |s.pins| && s.pins[i].imageUrl == url;
      assert s.pins == MockPins;
      assert url == MockImageUrls[i];
    }
  }

  lemma DisconnectPreservesInvariant(s: State)
    requires Invariant(s)
    ensures Invariant(Disconnect(s)) && Invariant(DismissError(s))
  {
  }

  lemma StepPreservesInvariant(s: State, e: Event)
    requires Invariant(s) && Enabled(s, e)
    ensures Invariant(Step(s, e))
  {
    match e
    case CallbackEffectRuns => CallbackEffectPreservesInvariant(s);
    case ClickConnect => ConnectPreservesInvariant(s, Rejected);
    case ConnectResponse(o) => ConnectPreservesInvariant(s, o);
    case ExchangeResponse(o) => ExchangePreservesInvariant(s, o);
    case FeedResponse(o) => FeedPreservesInvariant(s, o);
    case ClickImage(url) => SearchPreservesInvariant(s, url, Rejected);
    case SearchResponse(o) => SearchPreservesInvariant(s, "", o);
    case ClickDisconnect => DisconnectPreservesInvariant(s);
    case ClickDismiss => DisconnectPreservesInvariant(s);
  }

  lemma {:induction false} RunPreservesInvariant(s: State, events: seq<Event>)
    requires Invariant(s)
    ensures Run(s, events).Some? ==> Invariant(Run(s, events).value)
    decreases |events|
  {
    if |events| > 0 && Enabled(s, events[0]) {
      StepPreservesInvariant(s, events[0]);
      RunPreservesInvariant(Step(s, events[0]), events[1..]);
    }
  }

  /** Every state reachable from the first render satisfies the invariant. */
  lemma ReachableStatesSatisfyInvariant(stored: Option<string>, code: Option<string>, events: seq<Event>)
    ensures Run(Mount(stored, code), events).Some? ==> Invariant(Run(Mount(stored, code), events).value)
  {
    MountEstablishesInvariant(stored, code);
    RunPreservesInvariant(Mount(stored, code), events);
  }

  // ---------------------------------------------------------------------------
  // Properties of the handlers
  // ---------------------------------------------------------------------------

  /**
   * The callback guard: among all events, only the callback effect starts a
   * code exchange, and it does so exactly when the location holds a code and
   * the client is not authenticated.
   */
  lemma ExchangeStartsOnlyWhenGuarded(s: State, e: Event)
    requires Enabled(s, e)
    ensures Step(s, e).exchangesInFlight > s.exchangesInFlight
      <==> e == CallbackEffectRuns && Truthy(s.locationCode) && !s.isAuthenticated
  {
  }

  /** The feed fetch settles the same way on success and on failure. */
  lemma FeedIgnoresOutcome(s: State)
    requires s.feedsInFlight > 0
    ensures FeedSettled(s, Resolved(())) == FeedSettled(s, Rejected)
  {
  }

  /**
   * A click on an image followed by its own search settling: the image stays
   * selected, the results are the response's or the placeholders, loading is
   * off, and the other slots are as they were before the click.
   */
  lemma SearchOutcome(s: State, url: string, outcome: Outcome<seq<SearchResult>>)
    ensures var t := SearchSettled(BeginSearch(s, url), outcome);
      && t.SlotValues() == s.SlotValues().(selectedImage := Some(url), loading := false,
           searchResults := if outcome.Resolved? then outcome.data else MockResults)
      && t.Pending() == s.Pending() && t.Browser() == s.Browser()
  {
  }

  /** Applying Disconnect twice is the same as applying it once. */
  lemma DisconnectIdempotent(s: State)
    ensures Disconnect(Disconnect(s)) == Disconnect(s)
  {
  }

  /** Applying Dismiss twice is the same as applying it once. */
  lemma DismissIdempotent(s: State)
    ensures DismissError(DismissError(s)) == DismissError(s)
  {
  }

  /** Exactly one of Connect and Disconnect is offered in every state. */
  lemma ConnectOrDisconnectOffered(s: State)
    ensures Enabled(s, ClickConnect) != Enabled(s, ClickDisconnect)
  {
  }

  /**
   * No response is checked against the current session: a feed response that
   * arrives after Disconnect puts the placeholder pins back while the client
   * is unauthenticated.
   */
  lemma LateFeedAfterDisconnect(s: State, outcome: Outcome<()>)
    requires Invariant(s) && s.isAuthenticated && s.feedsInFlight > 0
    ensures var t := Run(s, [ClickDisconnect, FeedResponse(outcome)]);
      t.Some? && !t.value.isAuthenticated && t.value.pins == MockPins
  {
    var events := [ClickDisconnect, FeedResponse(outcome)];
    var d := Disconnect(s);
    var t := FeedSettled(d, outcome);
    assert events[1..] == [FeedResponse(outcome)];
    assert events[1..][1..] == [];
    assert Run(d, events[1..]) == Some(t);
    assert Run(s, events) == Some(t);
  }

  /**
   * Disconnect leaves a pending code exchange in flight: a client mounted
   * with a stored token and a code in the location, disconnected before the
   * exchange settles, is authenticated again with the new token.
   */
  lemma LateExchangeAfterDisconnect(stored: string, code: string, token: string)
    requires stored != "" && code != "" && token != ""
    ensures var t := Run(Mount(Some(stored), Some(code)), [ClickDisconnect, ExchangeResponse(Resolved(Some(token)))]);
      t.Some? && t.value.isAuthenticated && t.value.storedToken == Some(token) && t.value.locationCode == None
  {
    var events := [ClickDisconnect, ExchangeResponse(Resolved(Some(token)))];
    var s := Mount(Some(stored), Some(code));
    var d := Disconnect(s);
    var t := ExchangeSettled(d, Resolved(Some(token)));
    assert events[1..] == [ExchangeResponse(Resolved(Some(token)))];
    assert events[1..][1..] == [];
    assert Run(d, events[1..]) == Some(t);
    assert Run(s, events) == Some(t);
  }

  /**
   * loading is a single flag shared by the feed fetch and the search: when
   * the feed fetch settles first, loading goes off while the search is still
   * in flight.
   */
  lemma LoadingOffWhileSearchInFlight(s: State, url: string, outcome: Outcome<()>)
    requires s.feedsInFlight > 0
    ensures var t := FeedSettled(BeginSearch(s, url), outcome);
      !t.loading && t.searchesInFlight == s.searchesInFlight + 1
  {
  }

  /**
   * A client that returns from authorization with a code and no stored token
   * ends authenticated with the token stored, the code gone and the
   * placeholder feed loaded.
   */
  lemma AuthorizationScenario(code: string, token: string)
    requires code != "" && token != ""
    ensures var t := Run(Mount(None, Some(code)),
                         [ExchangeResponse(Resolved(Some(token))), CallbackEffectRuns, FeedResponse(Rejected)]);
      t.Some? && t.value.isAuthenticated && t.value.storedToken == Some(token)
      && t.value.locationCode == None && t.value.pins == MockPins && !t.value.loading
      && t.value.exchangesInFlight == 0 && t.value.feedsInFlight == 0
  {
    var events := [ExchangeResponse(Resolved(Some(token))), CallbackEffectRuns, FeedResponse(Rejected)];
    var s0 := Mount(None, Some(code));
    var s1 := ExchangeSettled(s0, Resolved(Some(token)));
    var s2 := RunCallbackEffect(s1);
    var s3 := FeedSettled(s2, Rejected);
    assert events[1..] == [CallbackEffectRuns, FeedResponse(Rejected)];
    assert events[1..][1..] == [FeedResponse(Rejected)];
    assert events[1..][1..][1..] == [];
    assert Run(s2, events[1..][1..]) == Some(s3);
    assert Run(s1, events[1..]) == Some(s3);
  }

  // ---------------------------------------------------------------------------
  // The component as an object with mutable state
  // ---------------------------------------------------------------------------

  /** The App component: one field per state slot, plus the browser state and the requests in flight. */
  class App {
    var isAuthenticated: bool
    var pins: seq<Pin>
    var selectedImage: Option<string>
    var searchResults: seq<SearchResult>
    var loading: bool
    var error: string
    /** localStorage's 'pinterest_access_token'. */
    var storedToken: Option<string>
    /** The `code` query parameter of window.location. */
    var locationCode: Option<string>
    /** The isAuthenticated value the callback effect last ran with (its dependency list). */
    var authSeenByEffect: bool
    var connectsInFlight: nat
    var exchangesInFlight: nat
    var feedsInFlight: nat
    var searchesInFlight: nat

    function Snapshot(): State
      reads this
    {
      State(isAuthenticated, pins, selectedImage, searchResults, loading, error,
            storedToken, locationCode, authSeenByEffect,
            connectsInFlight, exchangesInFlight, feedsInFlight, searchesInFlight)
    }

    ghost predicate Valid()
      reads this
    {
      Invariant(Snapshot())
    }

    /** Mounting the component: the initial slots, then both effects of the first render. */
    constructor (stored: Option<string>, code: Option<string>)
      ensures Snapshot() == Mount(stored, code) && Valid()
    {
      isAuthenticated, pins, selectedImage, searchResults, loading, error := false, [], None, [], false, "";
      storedToken, locationCode, authSeenByEffect := stored, code, false;
      connectsInFlight, exchangesInFlight, feedsInFlight, searchesInFlight := 0, 0, 0, 0;
      new;
      if Truthy(stored) {
        isAuthenticated := true;
        FetchPinterestFeed();
      }
      if Truthy(code) {
        exchangesInFlight := exchangesInFlight + 1;
      }
      MountEstablishesInvariant(stored, code);
    }

    /** fetchPinterestFeed up to its `await`. */
    method FetchPinterestFeed()
      requires Valid()
      modifies this
      ensures Snapshot() == BeginFeedFetch(old(Snapshot())) && Valid()
    {
      loading := true;
      feedsInFlight := feedsInFlight + 1;
    }

    /** The callback effect, re-run after isAuthenticated changed. */
    method CallbackEffect()
      requires Valid() && isAuthenticated != authSeenByEffect
      modifies this
      ensures Snapshot() == RunCallbackEffect(old(Snapshot())) && Valid()
    {
      StepPreservesInvariant(Snapshot(), CallbackEffectRuns);
      authSeenByEffect := isAuthenticated;
      if Truthy(locationCode) && !isAuthenticated {
        exchangesInFlight := exchangesInFlight + 1;
      }
    }

    /** handleAuth up to its `await`; the button exists only while unauthenticated. */
    method HandleAuth()
      requires Valid() && !isAuthenticated
      modifies this
      ensures Snapshot() == BeginConnect(old(Snapshot())) && Valid()
    {
      StepPreservesInvariant(Snapshot(), ClickConnect);
      connectsInFlight := connectsInFlight + 1;
    }

    /** handleAuth once the auth-URL request settles; returns where the browser is sent. */
    method HandleAuthSettled(outcome: Outcome<string>) returns (navigateTo: Option<string>)
      requires Valid() && connectsInFlight > 0
      modifies this
      ensures Snapshot() == ConnectSettled(old(Snapshot()), outcome) && Valid()
      ensures navigateTo == ConnectNavigation(outcome)
    {
      StepPreservesInvariant(Snapshot(), ConnectResponse(outcome));
      connectsInFlight := connectsInFlight - 1;
      match outcome
      case Resolved(authUrl) =>
        navigateTo := Some(authUrl);
      case Rejected =>
        navigateTo := None;
        error := ConnectFailedMessage;
    }

    /** handleOAuthCallback once the code exchange settles. */
    method HandleOAuthCallbackSettled(outcome: Outcome<Option<string>>)
      requires Valid() && exchangesInFlight > 0
      modifies this
      ensures Snapshot() == ExchangeSettled(old(Snapshot()), outcome) && Valid()
    {
      ExchangePreservesInvariant(Snapshot(), outcome);
      exchangesInFlight := exchangesInFlight - 1;
      match outcome
      case Rejected =>
        error := AuthFailedMessage;
      case Resolved(token) =>
        if Truthy(token) {
          AcceptToken(token);
        }
    }

    /** The body of handleOAuthCallback's `if (accessToken)`: store, authenticate, fetch, clean the URL. */
    method AcceptToken(token: Option<string>)
      requires Valid() && Truthy(token)
      modifies this
      ensures Snapshot() == BeginFeedFetch(old(Snapshot()).(storedToken := token, isAuthenticated := true)).(locationCode := None)
      ensures Valid()
    {
      StoringTokenKeepsInvariant(Snapshot(), token);
      storedToken := token;
      isAuthenticated := true;
      FetchPinterestFeed();
      locationCode := None;
    }

    /** fetchPinterestFeed once its request settles. */
    method FetchPinterestFeedSettled(outcome: Outcome<()>)
      requires Valid() && feedsInFlight > 0
      modifies this
      ensures Snapshot() == FeedSettled(old(Snapshot()), outcome) && Valid()
    {
      StepPreservesInvariant(Snapshot(), FeedResponse(outcome));
      pins := MockPins;
      loading := false;
      feedsInFlight := feedsInFlight - 1;
    }

    /** handleImageClick up to its `await`, for a pin image shown on the page. */
    method HandleImageClick(url: string)
      requires Valid() && ShowsImage(Snapshot(), url)
      modifies this
      ensures Snapshot() == BeginSearch(old(Snapshot()), url) && Valid()
    {
      StepPreservesInvariant(Snapshot(), ClickImage(url));
      selectedImage := Some(url);
      loading := true;
      searchesInFlight := searchesInFlight + 1;
    }

    /** handleImageClick once the product search settles. */
    method HandleImageClickSettled(outcome: Outcome<seq<SearchResult>>)
      requires Valid() && searchesInFlight > 0
      modifies this
      ensures Snapshot() == SearchSettled(old(Snapshot()), outcome) && Valid()
    {
      StepPreservesInvariant(Snapshot(), SearchResponse(outcome));
      match outcome {
        case Resolved(results) =>
          searchResults := results;
        case Rejected =>
          searchResults := MockResults;
      }
      loading := false;
      searchesInFlight := searchesInFlight - 1;
    }

    /** handleDisconnect; the button exists only while authenticated. */
    method HandleDisconnect()
      requires Valid() && isAuthenticated
      modifies this
      ensures Snapshot() == Disconnect(old(Snapshot())) && Valid()
    {
      StepPreservesInvariant(Snapshot(), ClickDisconnect);
      storedToken := None;
      isAuthenticated := false;
      pins := [];
      selectedImage := None;
      searchResults := [];
      error := "";
    }

    /** The Dismiss button, shown only while there is an error. */
    method Dismiss()
      requires Valid() && error != ""
      modifies this
      ensures Snapshot() == DismissError(old(Snapshot())) && Valid()
    {
      StepPreservesInvariant(Snapshot(), ClickDismiss);
      error := "";
    }
  }
}
