/** The application shell's route guard (`SessionCheck`): routes that need no
    sign-in always render; on every other route a freshly mounted guard shows
    its loading screen until a run of its effect finds a session, and a run
    without one sends the user to /signin. Once the children are shown, a
    later run without a session only redirects. */
module App {
  import opened Remote

  /** The routes that render without a session. */
  const NoAuthNeeded: seq<string> := ["/signin"]

  /** What one run of the guard's effect decides. */
  datatype Access = Allow | RedirectToSignin

  /** `noAuthNeeded.includes(pathname)` first, then the session's truthiness. */
  function Decide(pathname: string, session: Session): (a: Access)
    ensures a == Allow <==> pathname in NoAuthNeeded || session.Present()
  {
    if pathname in NoAuthNeeded then Allow
    else if !session.Present() then RedirectToSignin
    else Allow
  }

  /** The sign-in route renders whether or not anybody is signed in. */
  lemma SigninAlwaysAllowed(session: Session)
    ensures Decide("/signin", session) == Allow
  {
  }

  /** `loading` after one run of the guard's effect: cleared when access is
      allowed, otherwise left as it was (the effect then only redirects). */
  function NextLoading(loading: bool, pathname: string, session: Session): (l: bool)
    ensures !l <==> !loading || Decide(pathname, session) == Allow
  {
    if Decide(pathname, session) == Allow then false else loading
  }

  /** What the guard shows. */
  datatype Screen = LoadingScreen | Children

  function Render(loading: bool): (s: Screen)
    ensures s == Children <==> !loading
  {
    if loading then LoadingScreen else Children
  }

  /** One mounted guard. `SessionCheck` is declared inside `App`, so every
      render of `App` (every navigation among them) makes a new component
      type and React mounts a fresh guard, with `loading` back at `true`.
      The route is therefore fixed for the lifetime of one guard. */
  class SessionCheck {
    const pathname: string
    var loading: bool
    var pushes: seq<string>

    /** Mounting on a route: loading until the effect has run, so the
        children are not rendered first. */
    constructor (pathname: string)
      ensures this.pathname == pathname
      ensures loading && pushes == []
    {
      this.pathname := pathname;
      loading := true;
      pushes := [];
    }

    /** One run of the effect (it re-runs whenever the session changes while
        the guard stays mounted). It only ever sets `loading` to false, or
        pushes /signin and leaves `loading` as it was. */
    method CheckAccess(session: Session)
      modifies this
      ensures loading == NextLoading(old(loading), pathname, session)
      ensures pushes == old(pushes) + (if Decide(pathname, session) == RedirectToSignin then ["/signin"] else [])
    {
      if pathname in NoAuthNeeded {
        loading := false;
        return;
      }
      if !session.Present() {
        pushes := pushes + ["/signin"];
      } else {
        loading := false;
      }
    }
  }

  /** `loading` of a guard mounted on `pathname` after its effect has run for
      each session value in `sessions`, in order, starting from `loading`. */
  function LoadingAfter(loading: bool, pathname: string, sessions: seq<Session>): (l: bool)
    ensures !loading ==> !l
    decreases |sessions|
  {
    if sessions == [] then loading
    else LoadingAfter(NextLoading(loading, pathname, sessions[0]), pathname, sessions[1..])
  }

  /** For one mounted guard, the children are shown after a series of effect
      runs exactly when they were shown already or some run allowed access;
      once shown they stay shown, even if the session later disappears. A
      navigation mounts a new guard, which starts again from loading. */
  lemma {:induction false} ChildrenOnlyAfterAllow(loading: bool, pathname: string, sessions: seq<Session>)
    ensures !LoadingAfter(loading, pathname, sessions) <==>
      !loading || exists i :: 0 <= i < |sessions| && Decide(pathname, sessions[i]) == Allow
    decreases |sessions|
  {
    if sessions != [] {
      var next := NextLoading(loading, pathname, sessions[0]);
      ChildrenOnlyAfterAllow(next, pathname, sessions[1..]);
      if exists i :: 0 <= i < |sessions[1..]| && Decide(pathname, sessions[1..][i]) == Allow {
        var i :| 0 <= i < |sessions[1..]| && Decide(pathname, sessions[1..][i]) == Allow;
        assert Decide(pathname, sessions[i + 1]) == Allow;
      }
      if exists i :: 0 <= i < |sessions| && Decide(pathname, sessions[i]) == Allow {
        var i :| 0 <= i < |sessions| && Decide(pathname, sessions[i]) == Allow;
        if i > 0 {
          assert Decide(pathname, sessions[1..][i - 1]) == Allow;
        }
      }
    }
  }

  /** A guard freshly mounted on a route that needs a session keeps showing
      the loading screen through any series of runs without a session. */
  lemma {:induction false} GuardedRouteWithoutSessionLoads(pathname: string, sessions: seq<Session>)
    requires pathname !in NoAuthNeeded
    requires forall i :: 0 <= i < |sessions| ==> !sessions[i].Present()
    ensures Render(LoadingAfter(true, pathname, sessions)) == LoadingScreen
  {
    ChildrenOnlyAfterAllow(true, pathname, sessions);
  }
}
