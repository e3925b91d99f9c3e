/** The guard around the signed-in pages: it checks the session once on
    mount, follows auth-change events, and redirects to the login path when
    there is no session. */
module ProtectedRoute {
  import opened Auth

  const LoginPath := "/"

  /** The render decision: spinner while loading, the login path when not
      authenticated, otherwise the children. */
  function Decision(loading: bool, authenticated: bool): (r: Render)
    ensures r == Spinner <==> loading
    ensures r == Children <==> !loading && authenticated
    ensures r.Navigate? <==> !loading && !authenticated
    ensures r.Navigate? ==> r.to == LoginPath
  {
    if loading then Spinner
    else if !authenticated then Navigate(LoginPath)
    else Children
  }

  class Guard {
    var loading: bool
    var authenticated: bool
    /** The mount effect has run (it runs once: its dependency list is empty). */
    var mounted: bool
    /** A `getSession()` call is in flight. */
    var checkPending: bool
    var subscription: Subscription

    /** After mount, the guard is loading exactly while its session check is
        in flight; before mount it is in its initial state. */
    predicate Valid()
      reads this
    {
      (mounted ==> (loading <==> checkPending)) &&
      (!mounted ==> loading && !authenticated && !checkPending && subscription == NotRegistered) &&
      (subscription == Active ==> mounted)
    }

    /** The initial state: loading, not authenticated. */
    constructor ()
      ensures Valid()
      ensures loading && !authenticated && !mounted
    {
      loading := true;
      authenticated := false;
      mounted := false;
      checkPending := false;
      subscription := NotRegistered;
    }

    function Shown(): Render
      reads this
    {
      Decision(loading, authenticated)
    }

    /** The mount effect. Without a client it settles at once, signed out,
        and registers no listener; with one it starts the session check and
        subscribes to auth changes. */
    method Mount(configured: bool)
      requires Valid() && !mounted
      modifies this
      ensures Valid() && mounted
      ensures !configured ==> !loading && !authenticated && !checkPending && subscription == NotRegistered
      ensures configured ==> loading && !authenticated && checkPending && subscription == Active
    {
      mounted := true;
      if !configured {
        loading := false;
        authenticated := false;
        return;
      }
      checkPending := true;
      subscription := Active;
    }

    /** The session check settles: `authenticated` becomes whether there is a
        session (false when it threw), and loading ends in every case. */
    method CheckSettled(check: SessionCheck)
      requires Valid() && checkPending
      modifies this`authenticated, this`loading, this`checkPending
      ensures Valid()
      ensures authenticated == CheckedAuthenticated(check)
      ensures !loading && !checkPending
    {
      match check {
        case Checked(hasSession) => authenticated := hasSession;
        case CheckThrew => authenticated := false;
      }
      loading := false;
      checkPending := false;
    }

    /** An auth-change event: `authenticated` follows the event's session and
        `loading` is left alone. */
    method AuthChanged(hasSession: bool)
      requires Valid() && subscription == Active
      modifies this`authenticated
      ensures Valid()
      ensures authenticated == hasSession
    {
      authenticated := hasSession;
    }

    /** The effect's cleanup: the listener that was registered is released. */
    method Unmount()
      requires Valid() && mounted
      modifies this`subscription
      ensures Valid()
      ensures subscription == if old(subscription) == Active then Released else old(subscription)
    {
      if subscription == Active {
        subscription := Released;
      }
    }
  }

  /** There is no generation check: whichever of an auth event and the
      session check lands last decides `authenticated`, so a check that
      started before sign-in and settles after the event undoes it. */
  method LastWriterWins(checkLandsLast: bool, eventSession: bool, check: SessionCheck)
    returns (authenticated: bool, shown: Render)
    ensures authenticated == if checkLandsLast then CheckedAuthenticated(check) else eventSession
    ensures shown == Decision(false, authenticated)
    ensures checkLandsLast && eventSession && check == Checked(false) ==> shown == Navigate(LoginPath)
  {
    var g := new Guard();
    g.Mount(true);
    if checkLandsLast {
      g.AuthChanged(eventSession);
      g.CheckSettled(check);
    } else {
      g.CheckSettled(check);
      g.AuthChanged(eventSession);
    }
    authenticated := g.authenticated;
    shown := g.Shown();
  }

  /** Without a client the guard settles signed out, with no listener, and
      sends the visitor to the login path. */
  method UnconfiguredRedirects() returns (shown: Render, subscription: Subscription)
    ensures shown == Navigate(LoginPath) && subscription == NotRegistered
  {
    var g := new Guard();
    g.Mount(false);
    shown := g.Shown();
    subscription := g.subscription;
  }
}
