/**
 * The application root: the startup check of the stored identity and the
 * choice between the spinner, the authenticated drawer shell and the auth flow.
 * Its two state cells, `isAuthenticated` and `loading`, form the session gate:
 * Loading, then Authenticated or Unauthenticated, then login and logout move
 * between the last two.
 */
module App {
  import opened Wrappers
  import opened Storage

  /** What the root renders. */
  datatype Branch = Spinner | DrawerShell | AuthFlow

  /**
   * The root's render: nothing is committed while loading; once loaded, exactly
   * one of the two navigators is shown, the drawer shell iff authenticated.
   */
  function Render(loading: bool, isAuthenticated: bool): (b: Branch)
    ensures b == Spinner <==> loading
    ensures b == DrawerShell <==> !loading && isAuthenticated
    ensures b == AuthFlow <==> !loading && !isAuthenticated
  {
    if loading then Spinner
    else if isAuthenticated then DrawerShell
    else AuthFlow
  }

  /** The state cells of the root component. */
  class Session {
    var isAuthenticated: bool
    var loading: bool

    /** While loading, nothing can have authenticated the session yet. */
    ghost predicate Valid()
      reads this
    {
      loading ==> !isAuthenticated
    }

    /** The initial state: loading and not authenticated. */
    constructor ()
      ensures Valid() && loading && !isAuthenticated
      ensures Screen() == Spinner
    {
      isAuthenticated := false;
      loading := true;
    }

    /** What the root currently shows. */
    function Screen(): Branch
      reads this
    {
      Render(loading, isAuthenticated)
    }

    /**
     * `checkAuth`, run once on mount: the flag becomes "a non-empty `user_id`
     * is stored"; a failed read keeps the initial false; loading ends either way.
     */
    method CheckAuth(store: KeyValueStore, readFails: bool)
      requires Valid() && loading
      modifies this
      ensures Valid() && !loading
      ensures isAuthenticated == (!readFails && HasToken(store.entries))
      ensures readFails ==> !isAuthenticated
    {
      var r := store.GetItem(UserIdKey, readFails);
      if r.Value? {
        isAuthenticated := Present(r.item);
      }
      loading := false;
    }

    /**
     * The `setIsAuthenticated` setter handed to the auth screen and the logout
     * button, both of which exist only once loading has ended.
     */
    method SetAuthenticated(value: bool)
      requires Valid() && !loading
      modifies this
      ensures Valid() && !loading
      ensures isAuthenticated == value
    {
      isAuthenticated := value;
    }
  }

  /**
   * A cold start over a given store shows the drawer shell exactly when a
   * non-empty token is stored and the read succeeds, and the auth flow otherwise.
   */
  method ColdStart(store: KeyValueStore, readFails: bool) returns (session: Session, shown: Branch)
    ensures fresh(session)
    ensures shown == (if !readFails && HasToken(store.entries) then DrawerShell else AuthFlow)
  {
    session := new Session();
    session.CheckAuth(store, readFails);
    shown := session.Screen();
  }
}
