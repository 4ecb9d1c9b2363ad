/**
 * The login page of my-next-app: `LoginForm`'s submit handler around
 * `login`, its redirect effect, and the `ErrorBoundary`'s mapping of a
 * thrown error to its state.
 */
module LoginPage {
  import opened Common
  import AuthSession

  const LoginFailed := "Login failed"
  const SomethingWentWrong := "Something went wrong"
  const HomePath := "/"

  datatype FormState = FormState(username: string, password: string, error: Option<string>, isLoading: bool)

  /** The state after a submit, the credentials passed to `login`, and the
      state rendered while `login` was pending. */
  datatype Submission = Submission(after: FormState, call: (string, string), pending: FormState)

  /** `handleSubmit`, including how the awaited `login` settled. */
  function SubmitStep(st: FormState, outcome: Settled): (r: Submission)
    ensures r.call == (st.username, st.password)
    ensures r.pending == st.(error := None, isLoading := true)
    ensures !r.after.isLoading && r.after.username == st.username && r.after.password == st.password
    ensures outcome == Fulfilled <==> r.after.error == None
    ensures outcome.Rejected? ==> r.after.error == Some(MessageOr(outcome.reason, LoginFailed))
  {
    var pending := st.(error := None, isLoading := true);
    var settled := match outcome
      case Fulfilled => pending
      case Rejected(t) => pending.(error := Some(MessageOr(t, LoginFailed)));
    Submission(settled.(isLoading := false), (st.username, st.password), pending)
  }

  /** The effect on `user`: navigate home whenever a user is present. */
  function RedirectEffect(user: Option<AuthSession.JsonObject>): (r: Option<string>)
    ensures r.Some? <==> user.Some?
    ensures r.Some? ==> r.value == HomePath
  {
    if user.Some? then Some(HomePath) else None
  }

  /** A login that the session store accepts makes the page navigate home;
      one it rejects leaves the user, and therefore the effect, as it was. */
  lemma RedirectFollowsLogin(
    s: AuthSession.Session, username: string, password: string,
    tokenReply: AuthSession.Reply, identityReply: AuthSession.Reply)
    ensures var r := AuthSession.LoginStep(s, username, password, tokenReply, identityReply);
      && (r.result == Fulfilled ==> RedirectEffect(r.session.user) == Some(HomePath))
      && (r.result.Rejected? ==> RedirectEffect(r.session.user) == RedirectEffect(s.user))
  {
    AuthSession.LoginSucceedsIff(s, username, password, tokenReply, identityReply);
  }

  /** A rejection from the session store always carries an `Error`, so the
      page shows the store's own message. */
  lemma ShowsSessionMessage(
    st: FormState, s: AuthSession.Session, username: string, password: string,
    tokenReply: AuthSession.Reply, identityReply: AuthSession.Reply)
    requires AuthSession.LoginStep(s, username, password, tokenReply, identityReply).result.Rejected?
    ensures var r := AuthSession.LoginStep(s, username, password, tokenReply, identityReply);
      SubmitStep(st, r.result).after.error == Some(r.result.reason.message)
  {
  }

  datatype BoundaryState = BoundaryState(hasError: bool, errorMessage: string)

  /** `ErrorBoundary.getDerivedStateFromError`: `err.message || fallback`. */
  function DerivedStateFromError(err: Thrown): (r: BoundaryState)
    ensures r.hasError && r.errorMessage != ""
    ensures err.ErrorObject? && err.message != "" ==> r.errorMessage == err.message
    ensures !(err.ErrorObject? && err.message != "") ==> r.errorMessage == SomethingWentWrong
  {
    BoundaryState(true, if err.ErrorObject? && err.message != "" then err.message else SomethingWentWrong)
  }

  class LoginForm {
    var username: string
    var password: string
    var error: Option<string>
    var isLoading: bool

    function State(): FormState
      reads this
    {
      FormState(username, password, error, isLoading)
    }

    constructor ()
      ensures State() == FormState("", "", None, false)
    {
      username, password := "", "";
      error := None;
      isLoading := false;
    }

    method HandleSubmit(outcome: Settled) returns (call: (string, string), pending: FormState)
      modifies this
      ensures Submission(State(), call, pending) == SubmitStep(old(State()), outcome)
    {
      error := None;
      isLoading := true;
      call, pending := (username, password), State();
      match outcome {
        case Fulfilled =>
        case Rejected(t) =>
          error := Some(MessageOr(t, LoginFailed));
      }
      isLoading := false;
    }
  }
}
