# Session store and start-screen guard of the Aora client

This project models, in Dafny, the part of the Aora React Native client that
decides who is logged in and which screen the app opens on.

- `context/GlobalProvider.js` keeps three state cells: `isLoggedIn`, `user`
  and `isLoading`. On mount it calls `fetchUser` once. `fetchUser` asks the
  backend for the current user. When that call settles, a user logs in, a
  falsy result logs out, and a rejection only attempts an alert. Every
  settlement then clears `isLoading`. The context also exports the raw
  setters `setIsLoggedIn` and `setUser`.
- `app/index.jsx` is the start screen. It redirects to `/home` when loading
  has finished and the user is logged in. Otherwise it shows the landing
  screen, whose one button pushes `/sign-in`.

Files:

- `global_provider.dfy`, module `GlobalProvider`: the state-machine view
  (`State`, `Event`, `Step`, `Run`, `LastResolved`), its lemmas, and the class
  `Provider`, whose fields are the three cells. Each settlement and setter method
  of `Provider` states its new state as `Step` of its old state.
- `app_index.dfy`, module `AppIndex`: the routing guard `Route`, the landing
  screen with its button's target, lemmas that combine the guard with the store, and
  two cold-start clients of `Provider`.

Asynchrony is modelled as "issue, then later settle". `Provider.FetchUser`
only counts an outstanding call in the ghost field `inFlight`. A settlement
(`SettleSuccess` or `SettleFailure`) consumes one outstanding call. Several
calls therefore settle in any order, and `Run` applies events in the order in
which they happen.

A failed resolution does not log the user out: `context/GlobalProvider.js:26-28`
only attempts an alert and leaves `isLoggedIn` and `user` unchanged.

## Model

| member | source | states |
|---|---|---|
| GlobalProvider.InitialIsLoggedOutAndLoading | context/GlobalProvider.js:11-13 | the initial state is logged out, has no user, is loading, and is consistent |
| GlobalProvider.Step | context/GlobalProvider.js:15-40 | any settlement clears `isLoading` (lines 15-31); the exported setters of line 40 leave it alone; a fulfilled call sets `user` to its result and makes `isLoggedIn` agree; a rejection keeps `isLoggedIn` and `user`; settlements preserve consistency |
| GlobalProvider.ResolvedWithUser | context/GlobalProvider.js:17-20 | a truthy result gives logged in with that user, not loading |
| GlobalProvider.ResolvedWithoutUser | context/GlobalProvider.js:21-24 | a falsy result gives logged out with no user, not loading |
| GlobalProvider.RejectedKeepsIdentity | context/GlobalProvider.js:26-31 | a rejection changes only `isLoading`, which becomes false |
| GlobalProvider.Run | context/GlobalProvider.js:13-40 | after any history of events, `isLoading` is true exactly when it was true at the start and nothing has settled; it never becomes true again |
| GlobalProvider.LastFulfilledWins | context/GlobalProvider.js:15-31 | when only `fetchUser` calls settle, in whatever order, the identity is the result of the call that fulfilled last; rejections change nothing; loading ends at the first settlement |
| GlobalProvider.SettlementsStayConsistent | context/GlobalProvider.js:17-28 | without setter calls, `isLoggedIn == (user != null)` holds after every history of settlements that starts consistent |
| GlobalProvider.SettersChangeOnlyTheirCell | context/GlobalProvider.js:40 | `setIsLoggedIn` and `setUser` each change their own cell and nothing else |
| GlobalProvider.SetterCanBreakConsistency | context/GlobalProvider.js:40 | one setter on its own can make `isLoggedIn` and `user` disagree |
| GlobalProvider.SignInPair | context/GlobalProvider.js:40 | as the sign-in and sign-up screens use the exported setters, `setUser(res)` then `setIsLoggedIn(true)` gives logged in with `res` and keeps `isLoading`; when `res` is falsy this leaves a logged-in state with no user |
| GlobalProvider.LogoutPair | context/GlobalProvider.js:40 | as the profile screen's logout uses the exported setters, `setUser(null)` then `setIsLoggedIn(false)` gives logged out without a user and keeps `isLoading` |
| GlobalProvider.Provider.constructor | context/GlobalProvider.js:11-13 | a mounted provider holds the initial state and has issued one `fetchUser` call (the mount effect of lines 34-36) |
| GlobalProvider.Provider.FetchUser | context/GlobalProvider.js:15-16 | issuing `fetchUser` adds one outstanding call and changes no state cell |
| GlobalProvider.Provider.SettleSuccess | context/GlobalProvider.js:17-31 | a fulfilled call sets `isLoggedIn` to whether a user came back, sets `user` to the result, clears `isLoading`, and is `Step` of the old state |
| GlobalProvider.Provider.SettleFailure | context/GlobalProvider.js:26-31 | a rejected call leaves `isLoggedIn` and `user` as they were, records one alert attempt, clears `isLoading`, and is `Step` of the old state |
| GlobalProvider.Provider.SetIsLoggedIn | context/GlobalProvider.js:11 | the exported setter changes `isLoggedIn` only |
| GlobalProvider.Provider.SetUser | context/GlobalProvider.js:12 | the exported setter changes `user` only |
| AppIndex.Route | app/index.jsx:12-51 | the guard redirects exactly when not loading and logged in, a redirect always targets `/home`, and otherwise the landing screen is shown, whose one button pushes `/sign-in` |
| AppIndex.NoPrematureRedirect | app/index.jsx:12 | while loading, the landing screen is shown whatever `isLoggedIn` is |
| AppIndex.LoggedOutShowsLanding | app/index.jsx:12 | when logged out, the landing screen is shown whatever `isLoading` is |
| AppIndex.FirstSettlementRoute | app/index.jsx:12 | from the initial state, a first call that fulfils with a user leads to `/home`; one that fulfils with null or rejects leaves the landing screen |
| AppIndex.NoRedirectBeforeSettlement | app/index.jsx:12 | until some `fetchUser` call settles, no redirect happens, even after a screen has set `isLoggedIn` |
| AppIndex.RouteAfterSettlements | app/index.jsx:12-13 | after any history of settlements from the initial state, the redirect happens exactly when the last fulfilled call returned a user |
| AppIndex.RejectionKeepsLoadedRoute | app/index.jsx:12 | once loading has finished, a rejected call does not change the route |
| AppIndex.ColdStart | app/index.jsx:9-16 | mounting the provider and settling its call with a result renders `/home` for a user and the landing screen for null |
| AppIndex.ColdStartRejected | app/index.jsx:9-16 | mounting the provider and rejecting its call renders the landing screen after one alert attempt |

## Left out

- Layout and styling of the start screen (`app/index.jsx:16-58`): presentation only.
- `getCurrentUser` from `lib/appwrite`: a backend call whose source is not part of this model. Its outcome is a parameter: a user, a falsy value (`None`), or a rejection.
- JavaScript truthiness: every falsy result (`null`, `undefined`, `false`, `0`, `""`) is collapsed into `None`, and every user document counts as truthy.
- The alert itself: `SettleFailure` only counts an attempt in a ghost field. Line 27 calls `Alert(...)` and not `Alert.alert(...)`, so the code may throw there instead of showing anything. The `.finally` callback still clears `isLoading` either way. The rejected promise that may follow is not modelled.
- React mechanics: context creation and lookup, `useState` batching, render timing, and `useEffect` scheduling. The mount effect is one `fetchUser` call issued by the constructor. The updates of one callback are applied together. The interval between the `.then` and `.finally` callbacks is not modelled.
- Promise timing and concurrency: settlements are discrete events applied one at a time.
- `Redirect` and `router.push` of expo-router: only the target path is modelled.
- The setters take only the values the screens pass: a boolean for `setIsLoggedIn`, a user or `null` for `setUser`. React's updater form `setX(prev => ...)` and non-boolean `isLoggedIn` values (which `app/index.jsx:12` would read by truthiness) are not modelled; no caller uses either.
- The exported `fetchUser` being called again by other code is `Provider.FetchUser`.
- Sign-out, the data-fetch hook, identifier normalisation and the creator placeholder: none is part of the two files modelled here.
