/**
 * `ProtectedRoute` of my-next-app: what the guard renders for a given
 * `(isLoading, user)` pair and where its effect navigates. The effect's
 * `router.push` is an output value.
 */
module ProtectedRoute {
  import opened Common
  import AuthSession

  datatype Render = Placeholder(lines: seq<string>) | Nothing | Children

  datatype Outcome = Outcome(render: Render, navigate: Option<string>)

  const LoginPath := "/login"
  const PlaceholderLines := ["Loading...", "Please wait"]

  /** The render result together with the redirect effect. */
  function Guard(isLoading: bool, user: Option<AuthSession.JsonObject>): (r: Outcome)
    ensures r.render.Children? <==> !isLoading && user.Some?
    ensures r.navigate.Some? <==> !isLoading && user.None?
    ensures r.navigate.Some? ==> r.navigate.value == LoginPath
  {
    var navigate := if !isLoading && user.None? then Some(LoginPath) else None;
    if isLoading then Outcome(Placeholder(PlaceholderLines), navigate)
    else Outcome(if user.Some? then Children else Nothing, navigate)
  }

  /** While loading: the placeholder, and no navigation, whatever the user. */
  lemma WhileLoading(user: Option<AuthSession.JsonObject>)
    ensures Guard(true, user) == Outcome(Placeholder(PlaceholderLines), None)
  {
  }

  /** Resolved without a user: redirect to the login page, render nothing. */
  lemma UnauthenticatedRedirects()
    ensures Guard(false, None) == Outcome(Nothing, Some(LoginPath))
  {
  }

  /** Resolved with a user: the children, and no navigation. */
  lemma AuthenticatedRendersChildren(u: AuthSession.JsonObject)
    ensures Guard(false, Some(u)) == Outcome(Children, None)
  {
  }

  /** Exactly one of the three outcomes holds for every input pair. */
  lemma ExactlyOneOutcome(isLoading: bool, user: Option<AuthSession.JsonObject>)
    ensures var r := Guard(isLoading, user);
      var loading := r == Outcome(Placeholder(PlaceholderLines), None);
      var redirect := r == Outcome(Nothing, Some(LoginPath));
      var children := r == Outcome(Children, None);
      (loading || redirect || children) && !(loading && redirect) && !(loading && children) && !(redirect && children)
  {
  }

  /** Once the session store has mounted, the guard has left the loading state:
      it either redirects or shows the children, following the user found. */
  lemma ResolvedAfterMount(s: AuthSession.Session, reply: AuthSession.Reply)
    ensures var m := AuthSession.MountStep(s, reply).session;
      var r := Guard(m.isLoading, m.user);
      !r.render.Placeholder? && (r.render.Children? <==> m.user.Some?)
  {
  }
}

/**
 * The FrontEnd copy of `ProtectedRoute`: the same decision with a one-line
 * placeholder.
 */
module FrontEndProtectedRoute {
  import opened Common
  import AuthSession
  import ProtectedRoute

  datatype Render = Placeholder(text: string) | Nothing | Children

  datatype Outcome = Outcome(render: Render, navigate: Option<string>)

  const LoginPath := "/login"
  const PlaceholderText := "Loading..."

  function Guard(isLoading: bool, user: Option<AuthSession.JsonObject>): (r: Outcome)
    ensures r.render.Children? <==> !isLoading && user.Some?
    ensures r.navigate.Some? <==> !isLoading && user.None?
    ensures r.navigate.Some? ==> r.navigate.value == LoginPath
  {
    var navigate := if !isLoading && user.None? then Some(LoginPath) else None;
    if isLoading then Outcome(Placeholder(PlaceholderText), navigate)
    else Outcome(if user.Some? then Children else Nothing, navigate)
  }

  lemma WhileLoading(user: Option<AuthSession.JsonObject>)
    ensures Guard(true, user) == Outcome(Placeholder(PlaceholderText), None)
  {
  }

  lemma UnauthenticatedRedirects()
    ensures Guard(false, None) == Outcome(Nothing, Some(LoginPath))
  {
  }

  lemma AuthenticatedRendersChildren(u: AuthSession.JsonObject)
    ensures Guard(false, Some(u)) == Outcome(Children, None)
  {
  }

  /** The two copies make the same decision: same navigation, children in the
      same cases, a placeholder in the same cases; only its text differs. */
  lemma AgreesWithMyNextApp(isLoading: bool, user: Option<AuthSession.JsonObject>)
    ensures var a := Guard(isLoading, user);
      var b := ProtectedRoute.Guard(isLoading, user);
      && a.navigate == b.navigate
      && (a.render.Children? <==> b.render.Children?)
      && (a.render.Nothing? <==> b.render.Nothing?)
      && (a.render.Placeholder? <==> b.render.Placeholder?)
  {
  }
}
