# Fashion shopping assistant: session and data-shaping model

The application lets a user connect a Pinterest account, shows a feed of pins,
and, when a pin image is clicked, searches for shopping pages that sell
similar items. Two pieces of it carry logic that can be stated precisely, and
this project models and proves properties of both:

- **The React client's session** (`frontend/src/App.js`), in `frontend.dfy`,
  module `Frontend`. The six `useState` slots (`isAuthenticated`, `pins`,
  `selectedImage`, `searchResults`, `loading`, `error`), the token kept in
  `localStorage` and the `code` parameter of the page's location form a
  `State`. Every handler is a transition function on it, whose contract states
  its effect on the six slots, on the requests in flight and on the stored
  token and location; each asynchronous
  handler is split at its `await` into a begin step and a settled step that
  receives the request's outcome (`Resolved(data)` or `Rejected`). The number
  of requests of each kind still in flight is part of the state, so responses
  may settle in any order and, as in the source, none is checked for being
  stale. `Enabled` says when each event can occur (which button is on the
  page, which effect re-runs, which requests are pending), and `Run` plays a
  sequence of events. A session invariant is proved for every state reachable
  from the first render. The class `Frontend.App` holds the same slots as
  mutable fields; each of its methods is proved to perform exactly the
  corresponding transition and to keep the invariant.
- **The Flask backend's pure data shaping** (`backend/app.py`), in
  `backend.dfy`, module `Backend`. `AuthUrl` builds the OAuth 2.0
  authorization request of section 4.1.1 of RFC 6749 by string concatenation,
  inserting the app id and the redirect URI verbatim. A raw query-string
  reader, `ParseUrl`, is its partner: the round trip recovers the four
  parameters when the values hold no `&` or `#`, and an unencoded `&` in the
  redirect URI is shown to split the request. The product filter of
  `search_products` is the loop method `FilterShoppingResults`, proved equal
  to the specification function `ShoppingResults`, whose properties (order,
  contents, length, which items abort the request) are proved as lemmas.

`wrappers.dfy` (module `Wrappers`) holds `Option` and `Result`.

Environment variables (`PINTEREST_APP_ID`) and request arguments are
parameters; a missing one is `None`, which a Python f-string renders as the
text `None`. HTTP responses are the `Outcome` parameters of the settled steps.

## Model

| member | source | states |
|---|---|---|
| Backend.AuthUrlRoundTrip | backend/app.py:14-23 | Reading the authorization URL back gives the Pinterest OAuth endpoint and exactly the parameters response_type=code, client_id, redirect_uri and scope=boards:read,pins:read, in that order, each value as given, whenever the app id and redirect URI contain no `&` or `#` |
| Backend.AuthUrlWithoutAppId | backend/app.py:23 | With the app id unset, the URL carries the literal client id `None` and is otherwise the same request |
| Backend.UnencodedRedirectUriSplits | backend/app.py:22-23 | Because the redirect URI is inserted without encoding, one holding an `&` is read back as a truncated redirect_uri followed by an extra parameter before scope |
| Backend.Contains | backend/app.py:72 | Python's substring test: true exactly when the pattern occurs at some position of the text |
| Backend.AnyDomainIn | backend/app.py:72 | The `any(...)` over the domain list: true exactly when some listed domain occurs in the text |
| Backend.LowerConcat | backend/app.py:72 | Lower-casing a link works character by character, so it distributes over concatenation |
| Backend.Examine | backend/app.py:72-76 | One iteration on one item: it raises KeyError('link') for a missing link and KeyError('title') for a shopping item without a title, and nothing else; it keeps exactly the items whose link is a shopping link and that have a title, producing their title and link unchanged and image.thumbnailLink or '' |
| Backend.FilterShoppingResults | backend/app.py:66-79 | The filtering loop over `results.get('items', [])` returns exactly ShoppingResults of those items, including the KeyError of an item the loop aborts on |
| Backend.AbortIsFinal | backend/app.py:71-77 | Once an item raises a KeyError, the whole request ends with that error whatever follows |
| Backend.KeptIndices | backend/app.py:71-72 | The positions of the kept items are in range, strictly increasing (so distinct and in input order), and include a position exactly when that item has a link whose lower-cased text contains a shopping domain |
| Backend.ShoppingSucceedsIff | backend/app.py:71-77 | The filter succeeds if and only if no item lacks its link and no kept item lacks its title |
| Backend.MissingLinkAborts | backend/app.py:72 | An item without a `link` key aborts the whole request rather than being skipped |
| Backend.AbortReportsFirstOffender | backend/app.py:71-77 | A failed filter reports the KeyError of the first item that raises one, and every earlier item is processed without error |
| Backend.ShoppingResultsAreKeptItems | backend/app.py:71-77 | A successful filter returns one result per kept item, in input order; each result's title and link are the item's, unchanged, and its image is the item's image.thumbnailLink or '' |
| Backend.ShoppingResultsNoLonger | backend/app.py:71-77 | There are never more results than items |
| Backend.NoItemsNoResults | backend/app.py:71 | A response without an `items` key yields an empty result list |
| Backend.DomainAnywhereIsKept | backend/app.py:67-76 | An item whose link contains a shopping domain anywhere, in any letter case, is kept, and its result carries the link in its original case |
| Frontend.MountEstablishesInvariant | frontend/src/App.js:6-44 | The state after the first render satisfies the session invariant |
| Frontend.CallbackEffectPreservesInvariant | frontend/src/App.js:37-44 | Re-running the callback effect keeps the session invariant |
| Frontend.ConnectPreservesInvariant | frontend/src/App.js:22-34 | Starting and settling the connect request keep the session invariant |
| Frontend.ExchangePreservesInvariant | frontend/src/App.js:46-63 | Settling the code exchange keeps the session invariant: a stored token and isAuthenticated go together |
| Frontend.FeedPreservesInvariant | frontend/src/App.js:65-140 | Settling a feed fetch keeps the session invariant |
| Frontend.SearchPreservesInvariant | frontend/src/App.js:142-171 | Selecting an image shown on the page and settling the search keep the session invariant; the selection is one of the placeholder pins' images |
| Frontend.DisconnectPreservesInvariant | frontend/src/App.js:173-196 | Disconnect and Dismiss keep the session invariant |
| Frontend.StepPreservesInvariant | frontend/src/App.js:13-196 | Every event that can occur keeps the session invariant |
| Frontend.RunPreservesInvariant | frontend/src/App.js:13-196 | Any sequence of events that can occur keeps the session invariant |
| Frontend.ReachableStatesSatisfyInvariant | frontend/src/App.js:6-196 | Every state reachable from the first render has: isAuthenticated exactly when a non-empty token is stored; pins empty or the three placeholder pins; loading only while a feed fetch or a search is pending; error empty or one of the two messages; a selected image among the placeholder pins' images |
| Frontend.ExchangeStartsOnlyWhenGuarded | frontend/src/App.js:37-44 | Of all events, a code exchange starts only from the callback effect, and it does so if and only if a code is present and the client is not authenticated |
| Frontend.Mount | frontend/src/App.js:6-44 | The first render: with a stored token the client is authenticated with one feed fetch pending and loading on, other slots at their defaults; without one every slot keeps its default (false, [], null, [], false, ''); a code exchange is pending exactly when the location holds a code; nothing else is pending |
| Frontend.RunCallbackEffect | frontend/src/App.js:37-44 | The callback effect changes no slot and no stored data; it starts one code exchange exactly when a code is present and the client is not authenticated, and records the isAuthenticated value it ran with |
| Frontend.BeginConnect | frontend/src/App.js:22-28 | Clicking Connect sends the auth-URL request and changes no slot and no stored data |
| Frontend.ConnectSettled | frontend/src/App.js:29-33 | A successful connect changes no slot; a failed one sets error to 'Failed to connect to Pinterest. Please try again.' and changes no other slot; the stored token is untouched |
| Frontend.ConnectNavigation | frontend/src/App.js:29 | The browser is sent somewhere exactly when the request succeeded, and then to the returned auth_url |
| Frontend.ExchangeSettled | frontend/src/App.js:46-63 | A truthy access token is stored, the client becomes authenticated, a feed fetch starts with loading on and the code leaves the location, other slots untouched; a falsy token changes no slot and no stored data; a failure sets only error to 'Failed to authenticate with Pinterest. Please try again.' |
| Frontend.BeginFeedFetch | frontend/src/App.js:65-72 | Starting a feed fetch turns loading on, adds one pending feed request and changes nothing else |
| Frontend.FeedSettled | frontend/src/App.js:73-104 | A settled feed fetch installs the three placeholder pins with ids 1, 2, 3 and turns loading off; error, selectedImage, searchResults, isAuthenticated and the stored token are untouched |
| Frontend.FeedIgnoresOutcome | frontend/src/App.js:103-138 | The feed fetch's success and failure paths produce the same state |
| Frontend.BeginSearch | frontend/src/App.js:142-150 | Clicking an image sets selectedImage and turns loading on at once, leaving searchResults and the other slots unchanged |
| Frontend.SearchSettled | frontend/src/App.js:151-170 | However the events interleave, a settled search sets the results to the response's on success and to the two placeholders on failure, turns loading off, and changes no other slot |
| Frontend.SearchOutcome | frontend/src/App.js:142-171 | A click followed by its own search settling leaves the image selected, the results set from the outcome, loading off and the other slots as before the click |
| Frontend.Disconnect | frontend/src/App.js:173-180 | Disconnect removes the stored token and resets isAuthenticated, pins, selectedImage, searchResults and error to their defaults; loading, every pending request, the location's code and the effect's memory are left alone |
| Frontend.DisconnectIdempotent | frontend/src/App.js:173-180 | Applying Disconnect twice is the same as once |
| Frontend.DismissError | frontend/src/App.js:196 | Dismiss sets error to '' and changes nothing else |
| Frontend.DismissIdempotent | frontend/src/App.js:196 | Applying Dismiss twice is the same as once |
| Frontend.StoringTokenKeepsInvariant | frontend/src/App.js:51-53 | Storing a truthy token together with isAuthenticated keeps the session invariant |
| Frontend.LateExchangeAfterDisconnect | frontend/src/App.js:37-63 | Disconnect does not cancel a pending code exchange: a client mounted with a stored token and a code, disconnected before the exchange settles, ends authenticated with the new token stored |
| Frontend.ConnectOrDisconnectOffered | frontend/src/App.js:186-190 | In every state exactly one of the Connect and Disconnect buttons is offered |
| Frontend.LateFeedAfterDisconnect | frontend/src/App.js:65-180 | A feed response that settles after Disconnect puts the placeholder pins back while the client is unauthenticated, since no response is checked for staleness |
| Frontend.LoadingOffWhileSearchInFlight | frontend/src/App.js:65-171 | The feed fetch and the search share one loading flag: a feed settling first turns it off while the search is still pending |
| Frontend.AuthorizationScenario | frontend/src/App.js:37-104 | Returning from authorization with a code and no stored token, then the exchange, the effect re-run and the feed settling, ends authenticated with the token stored, the code gone, the placeholder feed shown and nothing pending |
| Frontend.App.constructor | frontend/src/App.js:6-44 | Mounting the component yields the first-render state and the invariant |
| Frontend.App.FetchPinterestFeed | frontend/src/App.js:65-72 | fetchPinterestFeed up to its request performs the begin-feed transition and keeps the invariant |
| Frontend.App.CallbackEffect | frontend/src/App.js:37-44 | The callback effect performs the guarded transition and keeps the invariant |
| Frontend.App.HandleAuth | frontend/src/App.js:22-28 | handleAuth up to its request, offered only while unauthenticated, performs the begin transition and keeps the invariant |
| Frontend.App.HandleAuthSettled | frontend/src/App.js:22-34 | The settled handleAuth performs the connect transition, keeps the invariant and returns the navigation target |
| Frontend.App.HandleOAuthCallbackSettled | frontend/src/App.js:46-63 | The settled handleOAuthCallback performs the exchange transition and keeps the invariant |
| Frontend.App.AcceptToken | frontend/src/App.js:51-58 | Accepting a truthy token stores it, authenticates, starts a feed fetch and clears the code, keeping the invariant |
| Frontend.App.FetchPinterestFeedSettled | frontend/src/App.js:65-140 | The settled feed fetch performs the feed transition and keeps the invariant |
| Frontend.App.HandleImageClick | frontend/src/App.js:142-150 | Clicking a shown pin image performs the begin-search transition and keeps the invariant |
| Frontend.App.HandleImageClickSettled | frontend/src/App.js:142-171 | The settled search performs the search transition and keeps the invariant |
| Frontend.App.HandleDisconnect | frontend/src/App.js:173-180 | handleDisconnect performs the disconnect transition and keeps the invariant |
| Frontend.App.Dismiss | frontend/src/App.js:193-196 | The Dismiss button, shown only with an error, performs the dismiss transition and keeps the invariant |

## Left out

- HTTP (`axios.get`, `requests.get`, `requests.post`), the Pinterest and Google APIs, Flask routing, CORS and `/api/health`: I/O. Request outcomes are parameters of the settled steps.
- The token-exchange route (backend/app.py:26-39) and the feed route (backend/app.py:41-47) forward requests and responses with no logic of their own; the request parameters sent by the client (the redirect URI, the code, the bearer header, the image URL) are not part of the state.
- Environment variables and `load_dotenv`: the app id is a parameter of `AuthUrl`.
- Backend.Lower: Python's `str.lower()` is modelled on ASCII letters only; other characters are left as they are.
- Backend.Examine: `None` in `Item` and `ImageInfo` means a missing key, so a value that is JSON null cannot be represented: a null `link` or `image` (AttributeError in the source), and a null `title` or `thumbnailLink`, which the source copies into the result as null because a `.get` default applies only to a missing key. A present title and thumbnail link are strings.
- Backend.ParseUrl: the reader does not percent-decode; it is a reference reader for the round trip, not part of the source.
- `localStorage`, `window.location` and `window.history.replaceState` are the fields `storedToken` and `locationCode`; a token is stored as given, without the string conversion `localStorage` applies.
- Frontend.App.HandleAuthSettled: navigating to the auth URL is a returned value; leaving the page is not modelled.
- React rendering, CSS, `console.error`, batching of updates and the development double-run of effects: each step applies its updates at once; only the button gating of lines 186-196 and 203-215 is kept, as event preconditions.
