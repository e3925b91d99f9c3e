/** The guard around the login page: the same session tracking as the
    protected guard, with the opposite redirect. */
module PublicRoute {
  import opened Auth
  import ProtectedRoute

  const HomePath := "/dashboard"

  /** The render decision: spinner while loading, the dashboard when
      authenticated, otherwise the children. */
  function Decision(loading: bool, authenticated: bool): (r: Render)
    ensures r == Spinner <==> loading
    ensures r == Children <==> !loading && !authenticated
    ensures r.Navigate? <==> !loading && authenticated
    ensures r.Navigate? ==> r.to == HomePath
  {
    if loading then Spinner
    else if authenticated then Navigate(HomePath)
    else Children
  }

  /** Once loading is over, exactly one of the two guards renders its
      children, and the other redirects. */
  lemma GuardsMirror(authenticated: bool)
    ensures (Decision(false, authenticated) == Children) != (ProtectedRoute.Decision(false, authenticated) == Children)
    ensures Decision(false, authenticated).Navigate? <==> ProtectedRoute.Decision(false, authenticated) == Children
  {
  }

  class Guard {
    var loading: bool
    var authenticated: bool
    /** The mount effect has run (it runs once: its dependency list is empty). */
    var mounted: bool
    /** A `getSession()` call is in flight. */
    var checkPending: bool
    var subscription: Subscription

    /** After mount, the guard is loading exactly while its session check is
        in flight; before mount it is in its initial state. */
    predicate Valid()
      reads this
    {
      (mounted ==> (loading <==> checkPending)) &&
      (!mounted ==> loading && !authenticated && !checkPending && subscription == NotRegistered) &&
      (subscription == Active ==> mounted)
    }

    /** The initial state: loading, not authenticated. */
    constructor ()
      ensures Valid()
      ensures loading && !authenticated && !mounted
    {
      loading := true;
      authenticated := false;
      mounted := false;
      checkPending := false;
      subscription := NotRegistered;
    }

    function Shown(): Render
      reads this
    {
      Decision(loading, authenticated)
    }

    /** The mount effect. Without a client only `loading` is cleared and no
        listener is registered; with one it starts the session check and
        subscribes to auth changes. */
    method Mount(configured: bool)
      requires Valid() && !mounted
      modifies this
      ensures Valid() && mounted
      ensures authenticated == old(authenticated)
      ensures !configured ==> !loading && !checkPending && subscription == NotRegistered
      ensures configured ==> loading && checkPending && subscription == Active
    {
      mounted := true;
      if !configured {
        loading := false;
        return;
      }
      checkPending := true;
      subscription := Active;
    }

    /** The session check settles: `authenticated` becomes whether there is a
        session (false when it threw), and loading ends in every case. */
    method CheckSettled(check: SessionCheck)
      requires Valid() && checkPending
      modifies this`authenticated, this`loading, this`checkPending
      ensures Valid()
      ensures authenticated == CheckedAuthenticated(check)
      ensures !loading && !checkPending
    {
      match check {
        case Checked(hasSession) => authenticated := hasSession;
        case CheckThrew => authenticated := false;
      }
      loading := false;
      checkPending := false;
    }

    /** An auth-change event: `authenticated` follows the event's session and
        `loading` is left alone. */
    method AuthChanged(hasSession: bool)
      requires Valid() && subscription == Active
      modifies this`authenticated
      ensures Valid()
      ensures authenticated == hasSession
    {
      authenticated := hasSession;
    }

    /** The effect's cleanup: the listener that was registered is released. */
    method Unmount()
      requires Valid() && mounted
      modifies this`subscription
      ensures Valid()
      ensures subscription == if old(subscription) == Active then Released else old(subscription)
    {
      if subscription == Active {
        subscription := Released;
      }
    }
  }

  /** Without a client the login page is shown: loading clears, the session
      stays unauthenticated and nothing is subscribed. */
  method UnconfiguredShowsLogin() returns (shown: Render, subscription: Subscription)
    ensures shown == Children && subscription == NotRegistered
  {
    var g := new Guard();
    g.Mount(false);
    shown := g.Shown();
    subscription := g.subscription;
  }
}
