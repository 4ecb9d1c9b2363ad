/**
 * The authentication session store of the dashboard (`AuthProvider`): the
 * current user, a loading flag, and a bearer token kept in the browser's
 * key/value storage under the two keys "token" and "token_type".
 *
 * HTTP replies are inputs: a reply either never arrives (the `fetch` promise
 * rejects with a message) or has an `ok` flag and a body that is either a JSON
 * object with string fields or not JSON at all (then `response.json()`
 * rejects). The requests the provider sends are returned, in order, so that
 * what is asked of the server can be stated too.
 *
 * Every operation is given twice: as a function on a `Session` value, which
 * the lemmas of this module reason about, and as a method of the class
 * `AuthProvider`, which performs the same steps on fields in the order the
 * provider performs them and is proved to agree with the function.
 */
module AuthSession {
  import opened Common

  type JsonObject = map<string, string>
  type Storage = map<string, string>

  /** Property access `o.key` on a parsed JSON object. */
  function Field(o: JsonObject, key: string): Option<string> {
    if key in o then Some(o[key]) else None
  }

  const TokenKey := "token"
  const TokenTypeKey := "token_type"

  const InvalidCredentials := "Invalid username or password."
  const NoTokenReturned := "No token returned from server"
  const UserFetchFailed := "Failed to fetch user data"
  const UnexpectedLoginError := "An unexpected error occurred"
  const RegistrationFailed := "Registration failed"
  const LoginAfterRegistrationFailed := "Registration successful, but login failed: "
  const LoginAfterRegistrationFailedManual :=
    "Registration successful, but login failed. Please try logging in manually."
  const UnexpectedRegistrationError := "An unexpected error occurred during registration"

  datatype Body = Json(obj: JsonObject) | NotJson(syntaxError: string)

  datatype Reply = Response(ok: bool, body: Body) | FetchFailed(message: string)

  datatype Request =
    | TokenRequest(username: string, password: string)
    | IdentityRequest(authorization: string)
    | RegisterRequest(username: string, email: string, password: string)

  datatype Session = Session(user: Option<JsonObject>, isLoading: bool, storage: Storage)

  /** The session after an operation, the requests it sent, and how its promise settled. */
  datatype Step = Step(session: Session, sent: seq<Request>, result: Settled)

  /** The `Authorization` header value sent to the identity endpoint. */
  function Authorization(tokenType: string, token: string): string {
    tokenType + " " + token
  }

  /** The (token, token type) pair rehydration uses: both stored and non-empty. */
  function StoredToken(storage: Storage): Option<(string, string)> {
    var token := Field(storage, TokenKey);
    var tokenType := Field(storage, TokenTypeKey);
    if Truthy(token) && Truthy(tokenType) then Some((token.value, tokenType.value)) else None
  }

  function RemoveToken(storage: Storage): Storage {
    storage - {TokenKey, TokenTypeKey}
  }

  function StoreToken(storage: Storage, token: string, tokenType: string): Storage {
    storage[TokenKey := token][TokenTypeKey := tokenType]
  }

  /** A reply whose status is ok and whose body parsed. */
  predicate Accepted(reply: Reply) {
    reply.Response? && reply.ok && reply.body.Json?
  }

  // ---------------------------------------------------------------------------
  // The operations on session values
  // ---------------------------------------------------------------------------

  /** `fetchUser`: ask the identity endpoint who the token belongs to. */
  function FetchUserStep(s: Session, token: string, tokenType: string, reply: Reply): (r: Step)
    ensures r.sent == [IdentityRequest(Authorization(tokenType, token))]
    ensures !r.session.isLoading && r.result == Fulfilled
    ensures Accepted(reply) ==> r.session.user == Some(reply.body.obj) && r.session.storage == s.storage
    ensures !Accepted(reply) ==> r.session.user == None
    ensures !Accepted(reply) ==> TokenKey !in r.session.storage && TokenTypeKey !in r.session.storage
    ensures forall k :: k in s.storage && k != TokenKey && k != TokenTypeKey ==>
              k in r.session.storage && r.session.storage[k] == s.storage[k]
  {
    var sent := [IdentityRequest(Authorization(tokenType, token))];
    if Accepted(reply) then
      Step(s.(user := Some(reply.body.obj), isLoading := false), sent, Fulfilled)
    else
      Step(Session(None, false, RemoveToken(s.storage)), sent, Fulfilled)
  }

  /** The mount effect: rehydrate from storage when both keys hold a value. */
  function MountStep(s: Session, reply: Reply): (r: Step)
    ensures !r.session.isLoading
    ensures StoredToken(s.storage).None? ==> r == Step(s.(isLoading := false), [], Fulfilled)
    ensures StoredToken(s.storage).Some? ==>
              r.sent == [IdentityRequest(Authorization(StoredToken(s.storage).value.1, StoredToken(s.storage).value.0))]
  {
    match StoredToken(s.storage)
    case Some((token, tokenType)) => FetchUserStep(s, token, tokenType, reply)
    case None => Step(s.(isLoading := false), [], Fulfilled)
  }

  /** The identity call that `login` makes once the token is stored. */
  function ConfirmIdentity(s: Session, sent: seq<Request>, reply: Reply): (r: Step)
    ensures r.sent == sent
    ensures r.session.storage == s.storage && r.session.isLoading == s.isLoading
    ensures r.result == Fulfilled <==> Accepted(reply)
    ensures Accepted(reply) ==> r.session.user == Some(reply.body.obj)
    ensures !Accepted(reply) ==> r.session == s && r.result.Rejected? && r.result.reason.ErrorObject?
  {
    match reply
    case FetchFailed(m) => Step(s, sent, Rejected(ErrorObject(m)))
    case Response(ok, NotJson(e)) => Step(s, sent, Rejected(ErrorObject(e)))
    case Response(ok, Json(o)) =>
      if !ok then Step(s, sent, Rejected(ErrorObject(OrElse(Field(o, "detail"), UserFetchFailed))))
      else Step(s.(user := Some(o)), sent, Fulfilled)
  }

  /** The body of `login`'s `try` block: token request, then identity request. */
  function LoginTry(s: Session, username: string, password: string, tokenReply: Reply, identityReply: Reply): (r: Step)
    ensures r.session.isLoading == s.isLoading
    ensures 1 <= |r.sent| <= 2 && r.sent[0] == TokenRequest(username, password)
    ensures r.result.Rejected? ==> r.result.reason.ErrorObject? && r.session.user == s.user
    ensures r.result == Fulfilled ==>
      && Accepted(tokenReply) && Accepted(identityReply)
      && r.session.user == Some(identityReply.body.obj)
      && StoredToken(r.session.storage).Some?
  {
    var sent := [TokenRequest(username, password)];
    match tokenReply
    case FetchFailed(m) => Step(s, sent, Rejected(ErrorObject(m)))
    case Response(ok, NotJson(e)) => Step(s, sent, Rejected(ErrorObject(e)))
    case Response(ok, Json(data)) =>
      if !ok then Step(s, sent, Rejected(ErrorObject(OrElse(Field(data, "detail"), InvalidCredentials))))
      else
        var accessToken := Field(data, "access_token");
        var tokenType := Field(data, "token_type");
        if !Truthy(accessToken) || !Truthy(tokenType) then
          Step(s, sent, Rejected(ErrorObject(NoTokenReturned)))
        else
          ConfirmIdentity(
            s.(storage := StoreToken(s.storage, accessToken.value, tokenType.value)),
            sent + [IdentityRequest(Authorization(tokenType.value, accessToken.value))],
            identityReply)
  }

  /** `login`: the `try` block, whose failures the `catch` rethrows as an `Error`
      with the same message. */
  function LoginStep(s: Session, username: string, password: string, tokenReply: Reply, identityReply: Reply): (r: Step)
    ensures r.session.isLoading == s.isLoading
    ensures 1 <= |r.sent| <= 2 && r.sent[0] == TokenRequest(username, password)
    ensures r.result != Rejected(OtherValue)
    ensures r.result == Fulfilled ==> r.session.user.Some? && StoredToken(r.session.storage).Some?
  {
    var t := LoginTry(s, username, password, tokenReply, identityReply);
    match t.result
    case Fulfilled => t
    case Rejected(e) => t.(result := Rejected(ErrorObject(MessageOr(e, UnexpectedLoginError))))
  }

  /** `logout`: forget the token and the user. */
  function LogoutStep(s: Session): (r: Step)
    ensures r.session.user == None && r.session.isLoading == s.isLoading
    ensures StoredToken(r.session.storage) == None
    ensures r.sent == [] && r.result == Fulfilled
  {
    Step(s.(user := None, storage := RemoveToken(s.storage)), [], Fulfilled)
  }

  /** `register`: the registration request, then an automatic `login`. */
  function RegisterStep(
    s: Session, username: string, email: string, password: string,
    registerReply: Reply, tokenReply: Reply, identityReply: Reply): (r: Step)
    ensures r.session.isLoading == s.isLoading
    ensures 1 <= |r.sent| && r.sent[0] == RegisterRequest(username, email, password)
    ensures r.result != Rejected(OtherValue)
  {
    var sent := [RegisterRequest(username, email, password)];
    var tried :=
      match registerReply
      case FetchFailed(m) => Step(s, sent, Rejected(ErrorObject(m)))
      case Response(ok, NotJson(e)) => Step(s, sent, Rejected(ErrorObject(e)))
      case Response(ok, Json(data)) =>
        if !ok then Step(s, sent, Rejected(ErrorObject(OrElse(Field(data, "detail"), RegistrationFailed))))
        else
          var login := LoginStep(s, username, password, tokenReply, identityReply);
          var sent' := sent + login.sent;
          match login.result
          case Fulfilled => Step(login.session, sent', Fulfilled)
          case Rejected(ErrorObject(m)) =>
            Step(login.session, sent', Rejected(ErrorObject(LoginAfterRegistrationFailed + m)))
          case Rejected(OtherValue) =>
            Step(login.session, sent', Rejected(ErrorObject(LoginAfterRegistrationFailedManual)));
    match tried.result
    case Fulfilled => tried
    case Rejected(e) => tried.(result := Rejected(ErrorObject(MessageOr(e, UnexpectedRegistrationError))))
  }

  // ---------------------------------------------------------------------------
  // Properties
  // ---------------------------------------------------------------------------

  /** Without both keys stored, mounting sends nothing and only ends loading. */
  lemma MountWithoutToken(s: Session, reply: Reply)
    requires !(Truthy(Field(s.storage, TokenKey)) && Truthy(Field(s.storage, TokenTypeKey)))
    ensures MountStep(s, reply).sent == []
    ensures MountStep(s, reply).session == s.(isLoading := false)
  {
  }

  /** With both keys stored, mounting performs `fetchUser` with them. */
  lemma MountWithToken(s: Session, reply: Reply)
    requires Truthy(Field(s.storage, TokenKey)) && Truthy(Field(s.storage, TokenTypeKey))
    ensures MountStep(s, reply) == FetchUserStep(s, s.storage[TokenKey], s.storage[TokenTypeKey], reply)
  {
  }

  /** Rejected by the token endpoint: the server's `detail` or the generic
      message, and nothing about the session changes. */
  lemma LoginRejectedByTokenEndpoint(s: Session, username: string, password: string, data: JsonObject, identityReply: Reply)
    ensures var r := LoginStep(s, username, password, Response(false, Json(data)), identityReply);
      && r.session == s
      && r.sent == [TokenRequest(username, password)]
      && r.result == Rejected(ErrorObject(if "detail" in data && data["detail"] != "" then data["detail"] else InvalidCredentials))
  {
  }

  /** An ok token reply without a non-empty `access_token` and `token_type`
      stores nothing. */
  lemma LoginWithoutToken(s: Session, username: string, password: string, data: JsonObject, identityReply: Reply)
    requires !Truthy(Field(data, "access_token")) || !Truthy(Field(data, "token_type"))
    ensures var r := LoginStep(s, username, password, Response(true, Json(data)), identityReply);
      && r.session == s
      && r.sent == [TokenRequest(username, password)]
      && r.result == Rejected(ErrorObject(NoTokenReturned))
  {
  }

  /** The token is stored before the identity call: when that call fails, the
      token stays stored while the user stays what it was. */
  lemma LoginIdentityFailureKeepsToken(
    s: Session, username: string, password: string, data: JsonObject, identityReply: Reply)
    requires Truthy(Field(data, "access_token")) && Truthy(Field(data, "token_type"))
    requires !Accepted(identityReply)
    ensures var r := LoginStep(s, username, password, Response(true, Json(data)), identityReply);
      && r.result.Rejected?
      && r.session.user == s.user
      && r.session.storage == StoreToken(s.storage, data["access_token"], data["token_type"])
      && StoredToken(r.session.storage) == Some((data["access_token"], data["token_type"]))
      && r.sent == [TokenRequest(username, password),
                    IdentityRequest(Authorization(data["token_type"], data["access_token"]))]
      && (identityReply.Response? && !identityReply.ok && identityReply.body.Json? ==>
            r.result == Rejected(ErrorObject(OrElse(Field(identityReply.body.obj, "detail"), UserFetchFailed))))
      && (identityReply.FetchFailed? ==> r.result == Rejected(ErrorObject(identityReply.message)))
  {
  }

  /** `login` succeeds exactly when the token reply is ok with both token
      fields and the identity reply is ok; it then stores the token and the
      identity body becomes the user. */
  lemma LoginSucceedsIff(s: Session, username: string, password: string, tokenReply: Reply, identityReply: Reply)
    ensures var r := LoginStep(s, username, password, tokenReply, identityReply);
      r.result == Fulfilled <==>
        Accepted(tokenReply)
        && Truthy(Field(tokenReply.body.obj, "access_token"))
        && Truthy(Field(tokenReply.body.obj, "token_type"))
        && Accepted(identityReply)
    ensures var r := LoginStep(s, username, password, tokenReply, identityReply);
      r.result == Fulfilled ==>
        && r.session.user == Some(identityReply.body.obj)
        && r.session.storage == StoreToken(s.storage, tokenReply.body.obj["access_token"], tokenReply.body.obj["token_type"])
  {
  }

  /** Logging out twice is logging out once. */
  lemma LogoutIdempotent(s: Session)
    ensures LogoutStep(LogoutStep(s).session) == LogoutStep(s)
  {
    assert RemoveToken(RemoveToken(s.storage)) == RemoveToken(s.storage);
  }

  /** A failed registration request attempts no login and changes nothing. */
  lemma RegisterRejected(
    s: Session, username: string, email: string, password: string,
    registerReply: Reply, tokenReply: Reply, identityReply: Reply)
    requires !Accepted(registerReply)
    ensures var r := RegisterStep(s, username, email, password, registerReply, tokenReply, identityReply);
      && r.session == s
      && r.sent == [RegisterRequest(username, email, password)]
      && (registerReply.Response? && registerReply.body.Json? ==>
            r.result == Rejected(ErrorObject(OrElse(Field(registerReply.body.obj, "detail"), RegistrationFailed))))
  {
  }

  /** An accepted registration chains into `login` with the same credentials;
      the session is login's, and a login failure is reported with a prefix. */
  lemma RegisterChainsLogin(
    s: Session, username: string, email: string, password: string,
    registerReply: Reply, tokenReply: Reply, identityReply: Reply)
    requires Accepted(registerReply)
    ensures var r := RegisterStep(s, username, email, password, registerReply, tokenReply, identityReply);
      var login := LoginStep(s, username, password, tokenReply, identityReply);
      && r.session == login.session
      && r.sent == [RegisterRequest(username, email, password)] + login.sent
      && (login.result == Fulfilled ==> r.result == Fulfilled)
      && (login.result.Rejected? ==>
            r.result == Rejected(ErrorObject(LoginAfterRegistrationFailed + login.result.reason.message)))
  {
  }

  /** Round trip through storage: after a successful login, a fresh provider
      over the same storage rehydrates by sending the same `Authorization`
      header, and if the server still honours the token and answers with the
      same body, it holds the same user. */
  lemma RehydrateAfterLogin(
    s: Session, username: string, password: string, tokenReply: Reply, identityReply: Reply)
    requires LoginStep(s, username, password, tokenReply, identityReply).result == Fulfilled
    ensures var login := LoginStep(s, username, password, tokenReply, identityReply);
      var restart := MountStep(Session(None, true, login.session.storage), identityReply);
      && restart.sent == [login.sent[1]]
      && restart.session.user == login.session.user
      && !restart.session.isLoading
  {
    LoginSucceedsIff(s, username, password, tokenReply, identityReply);
  }

  /** After logout, a restart neither contacts the server nor finds a user. */
  lemma RestartAfterLogout(s: Session, reply: Reply)
    ensures var restart := MountStep(Session(None, true, LogoutStep(s).session.storage), reply);
      restart.sent == [] && restart.session.user == None && !restart.session.isLoading
  {
  }

  // ---------------------------------------------------------------------------
  // The provider, step by step on its fields
  // ---------------------------------------------------------------------------

  class AuthProvider {
    var user: Option<JsonObject>
    var isLoading: bool
    var storage: Storage

    function Snapshot(): Session
      reads this
    {
      Session(user, isLoading, storage)
    }

    /** The provider as first rendered, over what storage already holds. */
    constructor (persisted: Storage)
      ensures Snapshot() == Session(None, true, persisted)
    {
      user := None;
      isLoading := true;
      storage := persisted;
    }

    method FetchUser(token: string, tokenType: string, reply: Reply) returns (sent: seq<Request>)
      modifies this
      ensures Step(Snapshot(), sent, Fulfilled) == FetchUserStep(old(Snapshot()), token, tokenType, reply)
    {
      sent := [IdentityRequest(Authorization(tokenType, token))];
      if reply.Response? && reply.ok && reply.body.Json? {
        user := Some(reply.body.obj);
      } else {
        storage := storage - {TokenKey};
        storage := storage - {TokenTypeKey};
        user := None;
      }
      isLoading := false;
      assert storage == RemoveToken(old(storage)) || storage == old(storage);
    }

    method Mount(reply: Reply) returns (sent: seq<Request>)
      modifies this
      ensures Step(Snapshot(), sent, Fulfilled) == MountStep(old(Snapshot()), reply)
    {
      var token := Field(storage, TokenKey);
      var tokenType := Field(storage, TokenTypeKey);
      if Truthy(token) && Truthy(tokenType) {
        sent := FetchUser(token.value, tokenType.value, reply);
      } else {
        sent := [];
        isLoading := false;
      }
    }

    method Login(username: string, password: string, tokenReply: Reply, identityReply: Reply)
      returns (sent: seq<Request>, result: Settled)
      modifies this
      ensures Step(Snapshot(), sent, result) == LoginStep(old(Snapshot()), username, password, tokenReply, identityReply)
    {
      sent := [TokenRequest(username, password)];
      var failure: Option<Thrown> := None;
      if tokenReply.FetchFailed? {
        failure := Some(ErrorObject(tokenReply.message));
      } else if tokenReply.body.NotJson? {
        failure := Some(ErrorObject(tokenReply.body.syntaxError));
      } else if !tokenReply.ok {
        failure := Some(ErrorObject(OrElse(Field(tokenReply.body.obj, "detail"), InvalidCredentials)));
      } else {
        var accessToken := Field(tokenReply.body.obj, "access_token");
        var tokenType := Field(tokenReply.body.obj, "token_type");
        if !Truthy(accessToken) || !Truthy(tokenType) {
          failure := Some(ErrorObject(NoTokenReturned));
        } else {
          storage := storage[TokenKey := accessToken.value];
          storage := storage[TokenTypeKey := tokenType.value];
          sent := sent + [IdentityRequest(Authorization(tokenType.value, accessToken.value))];
          if identityReply.FetchFailed? {
            failure := Some(ErrorObject(identityReply.message));
          } else if identityReply.body.NotJson? {
            failure := Some(ErrorObject(identityReply.body.syntaxError));
          } else if !identityReply.ok {
            failure := Some(ErrorObject(OrElse(Field(identityReply.body.obj, "detail"), UserFetchFailed)));
          } else {
            user := Some(identityReply.body.obj);
          }
        }
      }
      if failure.None? {
        result := Fulfilled;
      } else {
        result := Rejected(ErrorObject(MessageOr(failure.value, UnexpectedLoginError)));
      }
    }

    method Logout()
      modifies this
      ensures Snapshot() == LogoutStep(old(Snapshot())).session
    {
      storage := storage - {TokenKey};
      storage := storage - {TokenTypeKey};
      user := None;
      assert storage == RemoveToken(old(storage));
    }

    method Register(
      username: string, email: string, password: string,
      registerReply: Reply, tokenReply: Reply, identityReply: Reply)
      returns (sent: seq<Request>, result: Settled)
      modifies this
      ensures Step(Snapshot(), sent, result) ==
                RegisterStep(old(Snapshot()), username, email, password, registerReply, tokenReply, identityReply)
    {
      sent := [RegisterRequest(username, email, password)];
      var failure: Option<Thrown> := None;
      if registerReply.FetchFailed? {
        failure := Some(ErrorObject(registerReply.message));
      } else if registerReply.body.NotJson? {
        failure := Some(ErrorObject(registerReply.body.syntaxError));
      } else if !registerReply.ok {
        failure := Some(ErrorObject(OrElse(Field(registerReply.body.obj, "detail"), RegistrationFailed)));
      } else {
        var loginSent, loginResult := Login(username, password, tokenReply, identityReply);
        sent := sent + loginSent;
        match loginResult {
          case Fulfilled =>
          case Rejected(ErrorObject(m)) =>
            failure := Some(ErrorObject(LoginAfterRegistrationFailed + m));
          case Rejected(OtherValue) =>
            failure := Some(ErrorObject(LoginAfterRegistrationFailedManual));
        }
      }
      if failure.None? {
        result := Fulfilled;
      } else {
        result := Rejected(ErrorObject(MessageOr(failure.value, UnexpectedRegistrationError)));
      }
    }
  }
}
