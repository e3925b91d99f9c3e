/** What the two route guards share: the settled session check, the
    auth-change subscription's lifecycle, and the render decision. */
module Auth {

  /** How `supabase.auth.getSession()` settled: with or without a session,
      or by throwing. */
  datatype SessionCheck = Checked(hasSession: bool) | CheckThrew

  /** `!!session` after the check, and false when it threw. */
  function CheckedAuthenticated(check: SessionCheck): (authenticated: bool)
    ensures authenticated <==> check == Checked(true)
  {
    match check
    case Checked(hasSession) => hasSession
    case CheckThrew => false
  }

  /** The auth-change listener: never registered (no client), active, or
      unsubscribed by the effect's cleanup. */
  datatype Subscription = NotRegistered | Active | Released

  /** What a guard renders: the loading spinner, a replacing navigation, or
      its children. */
  datatype Render = Spinner | Navigate(to: string) | Children
}
