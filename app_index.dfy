/** The start screen of the app: it reads `isLoading` and `isLoggedIn` from
    the global provider and either redirects to the home feed or shows the
    landing screen, whose one button leads to sign-in. */
module AppIndex {
  import opened GlobalProvider

  const HomeHref := "/home"
  const SignInHref := "/sign-in"

  /** What the start screen renders: a redirect, or the landing screen with
      the path its one button ("Continue with Email") pushes. */
  datatype Screen = Redirect(href: string) | Landing(onPress: string)

  /** The routing guard: redirect to the home feed exactly when loading has
      finished and the user is logged in; otherwise the landing screen, whose
      button leads to sign-in. */
  function Route(isLoading: bool, isLoggedIn: bool): (r: Screen)
    ensures r.Redirect? <==> !isLoading && isLoggedIn
    ensures r.Redirect? ==> r.href == HomeHref
    ensures r.Landing? ==> r.onPress == SignInHref
  {
    if !isLoading && isLoggedIn then Redirect(HomeHref) else Landing(SignInHref)
  }

  /** The route the start screen takes for a snapshot of the store. */
  function RouteOf(s: State): Screen {
    Route(s.isLoading, s.isLoggedIn)
  }

  /** While loading, the landing screen is shown whatever `isLoggedIn` is. */
  lemma NoPrematureRedirect(isLoggedIn: bool)
    ensures Route(true, isLoggedIn) == Landing(SignInHref)
  {
  }

  /** Logged out, the landing screen is shown whatever `isLoading` is. */
  lemma LoggedOutShowsLanding(isLoading: bool)
    ensures Route(isLoading, false) == Landing(SignInHref)
  {
  }

  /** The first settlement from the initial state: a user leads home; no user,
      or a rejected call, leaves the landing screen. */
  lemma FirstSettlementRoute(u: User)
    ensures RouteOf(Step(Initial, Resolved(Some(u)))) == Redirect(HomeHref)
    ensures RouteOf(Step(Initial, Resolved(None))) == Landing(SignInHref)
    ensures RouteOf(Step(Initial, Rejected)) == Landing(SignInHref)
  {
  }

  /** Until some `fetchUser` call has settled there is no redirect, even if
      a screen has already set `isLoggedIn`. */
  lemma NoRedirectBeforeSettlement(es: seq<Event>)
    requires NoSettlement(es)
    ensures RouteOf(Run(Initial, es)) == Landing(SignInHref)
  {
    assert Run(Initial, es).isLoading;
  }

  /** When only `fetchUser` calls settle, the start screen redirects home
      exactly when some call fulfilled and the last one to fulfil returned a
      user; otherwise it shows the landing screen. */
  lemma RouteAfterSettlements(es: seq<Event>)
    requires OnlySettlements(es)
    ensures RouteOf(Run(Initial, es)).Redirect? <==>
              LastResolved(es).Some? && LastResolved(es).value.Some?
  {
    LastFulfilledWins(Initial, es);
  }

  /** A rejected call never changes the route of a store that has already
      finished loading. */
  lemma RejectionKeepsLoadedRoute(s: State)
    requires !s.isLoading
    ensures RouteOf(Step(s, Rejected)) == RouteOf(s)
  {
  }

  /** Cold start as a client of `Provider`: the mount effect's call settles
      and the start screen is rendered. */
  method ColdStart(res: Option<User>) returns (screen: Screen)
    ensures screen == if res.Some? then Redirect(HomeHref) else Landing(SignInHref)
  {
    var p := new Provider();
    p.SettleSuccess(res);
    screen := Route(p.isLoading, p.isLoggedIn);
  }

  /** Cold start whose call rejects: the landing screen, and one attempted
      notification. */
  method ColdStartRejected() returns (screen: Screen, ghost alerts: nat)
    ensures screen == Landing(SignInHref) && alerts == 1
  {
    var p := new Provider();
    p.SettleFailure();
    screen := Route(p.isLoading, p.isLoggedIn);
    alerts := p.alertsAttempted;
  }
}
