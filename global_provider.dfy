/** The session store of the client: the three state cells of the global
    provider (`isLoggedIn`, `user`, `isLoading`), the outcomes of `fetchUser`
    and the two raw setters the context hands to every screen.

    The store is modelled twice over. `Step` and `Run` are the state machine
    on plain values: every change the store can undergo is an `Event`, and a
    history of events is applied in the order in which the events happen
    (for `fetchUser`, the order in which its calls settle, not the order in
    which they were issued). The class `Provider` holds the three cells as
    fields and changes them in place; each of its settlement and setter
    methods is tied to `Step`. */
module GlobalProvider {

  datatype Option<T> = None | Some(value: T)

  /** The user document the backend returns for the current session. */
  datatype User = User(id: string, username: string, avatar: string)

  /** A snapshot of the three state cells. `user == None` is `null`. */
  datatype State = State(isLoggedIn: bool, user: Option<User>, isLoading: bool)

  /** Everything that changes the state cells. `Resolved(None)` stands for
      every falsy value `getCurrentUser()` may fulfil with. */
  datatype Event =
    | Resolved(res: Option<User>)    // getCurrentUser() fulfilled
    | Rejected                       // getCurrentUser() rejected
    | LoggedInSet(loggedIn: bool)    // a screen called setIsLoggedIn
    | UserSet(newUser: Option<User>) // a screen called setUser
  {
    /** One of the two ways a `fetchUser` call settles. */
    predicate IsSettlement() { Resolved? || Rejected? }
  }

  /** The initial values of the three `useState` cells. */
  const Initial := State(false, None, true)

  /** `isLoggedIn` agrees with the presence of a user. */
  predicate Consistent(s: State) { s.isLoggedIn == s.user.Some? }

  predicate NoSettlement(es: seq<Event>) {
    forall i :: 0 <= i < |es| ==> !es[i].IsSettlement()
  }

  predicate OnlySettlements(es: seq<Event>) {
    forall i :: 0 <= i < |es| ==> es[i].IsSettlement()
  }

  /** The effect of one event on the state cells. A fulfilled call sets the
      identity from its result, a rejected one only attempts a notification;
      both then clear `isLoading` (the `.finally` callback). A setter changes
      its own cell. */
  function Step(s: State, e: Event): (r: State)
    ensures e.IsSettlement() ==> !r.isLoading
    ensures !e.IsSettlement() ==> r.isLoading == s.isLoading
    ensures e.Resolved? ==> Consistent(r) && r.user == e.res
    ensures e.Rejected? ==> r.isLoggedIn == s.isLoggedIn && r.user == s.user
    ensures Consistent(s) && e.IsSettlement() ==> Consistent(r)
  {
    match e
    case Resolved(res) =>
      if res.Some? then State(true, res, false) else State(false, None, false)
    case Rejected => s.(isLoading := false)
    case LoggedInSet(b) => s.(isLoggedIn := b)
    case UserSet(u) => s.(user := u)
  }

  /** The state after the events of `es`, applied from first to last. The
      loading flag is still set exactly when it was set at the start and no
      call has settled since; nothing can set it again. */
  function Run(s: State, es: seq<Event>): (r: State)
    ensures r.isLoading <==> s.isLoading && NoSettlement(es)
    decreases |es|
  {
    if es == [] then s
    else
      var n := |es| - 1;
      assert NoSettlement(es) <==> NoSettlement(es[..n]) && !es[n].IsSettlement() by {
        assert forall i :: 0 <= i < n ==> es[..n][i] == es[i];
      }
      Step(Run(s, es[..n]), es[n])
  }

  /** The result of the call that fulfilled last, if any call fulfilled. */
  function LastResolved(es: seq<Event>): Option<Option<User>>
    decreases |es|
  {
    if es == [] then None
    else if es[|es| - 1].Resolved? then Some(es[|es| - 1].res)
    else LastResolved(es[..|es| - 1])
  }

  lemma OnlySettlementsPrefix(es: seq<Event>)
    requires es != [] && OnlySettlements(es)
    ensures OnlySettlements(es[..|es| - 1]) && es[|es| - 1].IsSettlement()
  {
    assert forall i :: 0 <= i < |es| - 1 ==> es[..|es| - 1][i] == es[i];
  }

  /** When only `fetchUser` calls settle, the identity is that of the call
      that fulfilled last (a rejection changes nothing), and the loading flag
      is cleared as soon as anything settled. */
  lemma {:induction false} LastFulfilledWins(s: State, es: seq<Event>)
    requires OnlySettlements(es)
    ensures Run(s, es) ==
      match LastResolved(es)
      case None => s.(isLoading := s.isLoading && es == [])
      case Some(res) => State(res.Some?, res, false)
    decreases |es|
  {
    if es != [] {
      OnlySettlementsPrefix(es);
      LastFulfilledWins(s, es[..|es| - 1]);
    }
  }

  /** From a consistent state (the initial one among them), as long as no
      setter is called, `isLoggedIn` tells exactly whether a user is present. */
  lemma {:induction false} SettlementsStayConsistent(s: State, es: seq<Event>)
    requires Consistent(s) && OnlySettlements(es)
    ensures Consistent(Run(s, es))
    decreases |es|
  {
    if es != [] {
      OnlySettlementsPrefix(es);
      SettlementsStayConsistent(s, es[..|es| - 1]);
    }
  }

  /** The initial state is logged out, without a user, and loading. */
  lemma InitialIsLoggedOutAndLoading()
    ensures !Initial.isLoggedIn && Initial.user == None && Initial.isLoading
    ensures Consistent(Initial)
  {
  }

  lemma ResolvedWithUser(s: State, u: User)
    ensures Step(s, Resolved(Some(u))) == State(true, Some(u), false)
  {
  }

  lemma ResolvedWithoutUser(s: State)
    ensures Step(s, Resolved(None)) == State(false, None, false)
  {
  }

  lemma RejectedKeepsIdentity(s: State)
    ensures Step(s, Rejected) == s.(isLoading := false)
  {
  }

  /** Each raw setter changes its own cell and no other. */
  lemma SettersChangeOnlyTheirCell(s: State, b: bool, u: Option<User>)
    ensures Step(s, LoggedInSet(b)) == State(b, s.user, s.isLoading)
    ensures Step(s, UserSet(u)) == State(s.isLoggedIn, u, s.isLoading)
  {
  }

  /** The setters are independent: one of them alone can leave `isLoggedIn`
      and `user` disagreeing. */
  lemma SetterCanBreakConsistency(s: State, u: User)
    requires Consistent(s)
    ensures !Consistent(Step(s, LoggedInSet(!s.isLoggedIn)))
    ensures !s.isLoggedIn ==> !Consistent(Step(s, UserSet(Some(u))))
  {
  }

  /** The sign-in and sign-up screens call `setUser(result)` and then
      `setIsLoggedIn(true)`, where `result` comes from the backend and may be
      falsy. The pair ends logged in with that result and keeps the loading
      flag; with a falsy result the store is left logged in without a user. */
  lemma SignInPair(s: State, res: Option<User>)
    ensures Run(s, [UserSet(res), LoggedInSet(true)]) == State(true, res, s.isLoading)
    ensures Consistent(Run(s, [UserSet(res), LoggedInSet(true)])) <==> res.Some?
  {
    assert [UserSet(res), LoggedInSet(true)][..1] == [UserSet(res)];
  }

  /** The profile screen's logout calls `setUser(null)` and then
      `setIsLoggedIn(false)`. The pair ends logged out without a user and
      keeps the loading flag. */
  lemma LogoutPair(s: State)
    ensures Run(s, [UserSet(None), LoggedInSet(false)]) == State(false, None, s.isLoading)
  {
    assert [UserSet(None), LoggedInSet(false)][..1] == [UserSet(None)];
  }

  /** The global provider as an object whose three state cells are fields.
      `inFlight` counts the `fetchUser` calls issued and not yet settled;
      `alertsAttempted` counts the notification attempts of the rejection
      callback. Both are ghost: the source keeps neither. */
  class Provider {
    var isLoggedIn: bool
    var user: Option<User>
    var isLoading: bool
    ghost var inFlight: nat
    ghost var alertsAttempted: nat

    function Snapshot(): State
      reads this
    {
      State(isLoggedIn, user, isLoading)
    }

    /** Mounting the provider: the cells take their initial values and the
        mount effect issues one `fetchUser` call. */
    constructor ()
      ensures Snapshot() == Initial
      ensures inFlight == 1 && alertsAttempted == 0
    {
      isLoggedIn := false;
      user := None;
      isLoading := true;
      inFlight := 0;
      alertsAttempted := 0;
      new;
      FetchUser();
    }

    /** `fetchUser` issues `getCurrentUser()` and returns at once; the state
        changes only when the call settles. It does not set `isLoading`. */
    method FetchUser()
      modifies this`inFlight
      ensures inFlight == old(inFlight) + 1
    {
      inFlight := inFlight + 1;
    }

    /** One issued call fulfils with `res`. */
    method SettleSuccess(res: Option<User>)
      requires inFlight > 0
      modifies this
      ensures Snapshot() == Step(old(Snapshot()), Resolved(res))
      ensures isLoggedIn == res.Some? && user == res && !isLoading
      ensures inFlight == old(inFlight) - 1 && alertsAttempted == old(alertsAttempted)
    {
      if res.Some? {
        isLoggedIn := true;
        user := res;
      } else {
        isLoggedIn := false;
        user := None;
      }
      isLoading := false;
      inFlight := inFlight - 1;
    }

    /** One issued call rejects: a notification is attempted and the identity
        is left as it was. */
    method SettleFailure()
      requires inFlight > 0
      modifies this
      ensures Snapshot() == Step(old(Snapshot()), Rejected)
      ensures isLoggedIn == old(isLoggedIn) && user == old(user) && !isLoading
      ensures inFlight == old(inFlight) - 1 && alertsAttempted == old(alertsAttempted) + 1
    {
      alertsAttempted := alertsAttempted + 1;
      isLoading := false;
      inFlight := inFlight - 1;
    }

    /** The exported `setIsLoggedIn`. */
    method SetIsLoggedIn(b: bool)
      modifies this`isLoggedIn
      ensures Snapshot() == Step(old(Snapshot()), LoggedInSet(b))
      ensures isLoggedIn == b
    {
      isLoggedIn := b;
    }

    /** The exported `setUser`. */
    method SetUser(u: Option<User>)
      modifies this`user
      ensures Snapshot() == Step(old(Snapshot()), UserSet(u))
      ensures user == u
    {
      user := u;
    }
  }
}
