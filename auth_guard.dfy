/**
 * The route guard (src/components/AuthGuard.tsx): a component with two
 * state flags, `isLoading` and `isAuthed`, whose effect checks the session
 * and either pushes the login route or marks the user as authorized; what
 * it renders is decided by the two flags.
 */
module AuthGuard {
  import Auth

  /** What the guard renders: the spinner, nothing (`return null`), or the guarded children. */
  datatype Screen = Spinner | Nothing | Children

  /** What one run of checkAuth decides. */
  datatype Decision = RedirectToLogin | Authorize

  /** checkAuth's decision from the two session queries and the `requireAdmin` prop. */
  function Decide(authenticated: bool, admin: bool, requireAdmin: bool): (d: Decision)
    ensures d == Authorize <==> authenticated && (!requireAdmin || admin)
  {
    if !authenticated then RedirectToLogin
    else if requireAdmin && !admin then RedirectToLogin
    else Authorize
  }

  /** The render decision over the two flags. */
  function Render(isLoading: bool, isAuthed: bool): (s: Screen)
    ensures s == Spinner <==> isLoading
    ensures s == Children <==> !isLoading && isAuthed
  {
    if isLoading then Spinner
    else if !isAuthed then Nothing
    else Children
  }

  /** What a freshly mounted guard shows once its first check has run. */
  function ScreenAfterFirstCheck(authenticated: bool, admin: bool, requireAdmin: bool): (s: Screen)
    ensures s != Nothing
    ensures s == Children <==> authenticated && (!requireAdmin || admin)
    ensures s == Spinner <==> !authenticated || (requireAdmin && !admin)
  {
    match Decide(authenticated, admin, requireAdmin)
    case RedirectToLogin => Render(true, false)
    case Authorize => Render(false, true)
  }

  /** With the default `requireAdmin = false`, any session passes, admin or not. */
  lemma DefaultLetsAnySessionIn(authenticated: bool, admin: bool)
    ensures ScreenAfterFirstCheck(authenticated, admin, false) == (if authenticated then Children else Spinner)
  {
  }

  class Guard {
    var isLoading: bool
    var isAuthed: bool
    /** The routes passed to `router.push`, in order. */
    var pushed: seq<string>

    /** The two flags only ever change together. */
    ghost predicate FlagsInStep()
      reads this
    {
      isLoading == !isAuthed
    }

    /** Mounting: loading, not authorized. */
    constructor ()
      ensures isLoading && !isAuthed && pushed == []
      ensures FlagsInStep()
      ensures View() == Spinner
    {
      isLoading := true;
      isAuthed := false;
      pushed := [];
    }

    function View(): Screen
      reads this
    {
      Render(isLoading, isAuthed)
    }

    /** One run of the effect's checkAuth against the session. */
    method CheckAuth(session: Auth.Browser, requireAdmin: bool)
      requires session.Valid()
      modifies this
      ensures var d := Decide(session.IsAuthenticated(), session.IsAdmin(), requireAdmin);
        && (d == RedirectToLogin ==>
              isLoading == old(isLoading) && isAuthed == old(isAuthed) && pushed == old(pushed) + [Auth.LoginPath])
        && (d == Authorize ==> isAuthed && !isLoading && pushed == old(pushed))
      ensures old(FlagsInStep()) ==> FlagsInStep()
    {
      var authenticated := session.IsAuthenticated();
      var admin := session.IsAdmin();
      if !authenticated {
        pushed := pushed + [Auth.LoginPath];
        return;
      }
      if requireAdmin && !admin {
        pushed := pushed + [Auth.LoginPath];
        return;
      }
      isAuthed := true;
      isLoading := false;
    }
  }

  /** In every state the guard can reach the `return null` branch is dead. */
  lemma NeverRendersNothing(g: Guard)
    requires g.FlagsInStep()
    ensures g.View() != Nothing
  {
  }

  /** The guarded children are never on screen after a first check that found no session. */
  method FirstCheck(session: Auth.Browser, requireAdmin: bool) returns (g: Guard)
    requires session.Valid()
    ensures g.View() == ScreenAfterFirstCheck(session.IsAuthenticated(), session.IsAdmin(), requireAdmin)
    ensures !session.IsAuthenticated() ==> g.View() == Spinner && g.pushed == [Auth.LoginPath]
  {
    g := new Guard();
    g.CheckAuth(session, requireAdmin);
  }
}
