/**
 * The session held by the authentication provider: the signed-in user, whether the
 * session counts as authenticated, whether the start-up check is still running, and the
 * browser's key/value storage, where the token and the user's data are kept between visits.
 */
module AuthContext {
  import opened JsRuntime

  datatype User = User(id: string, name: string, email: string, createdAt: string, updatedAt: string)

  /** A storage value: the JSON text of a user written at sign-in, or any other text. */
  datatype Stored = Text(text: string) | UserJson(user: User)

  const TokenKey: string := "token"
  const UserDataKey: string := "userData"

  const LoginMissingToken: string := "No se recibió token en la respuesta del login"
  const RegisterMissingToken: string := "No se recibió token en la respuesta del registro"

  function Get(storage: map<string, Stored>, key: string): (v: Option<Stored>)
    ensures v.Some? <==> key in storage
    ensures v.Some? ==> v.value == storage[key]
  {
    if key in storage then Some(storage[key]) else None
  }

  /** JavaScript truthiness of `getItem`: a missing key or the empty string is falsy. */
  predicate Truthy(v: Option<Stored>) {
    match v
    case None => false
    case Some(Text(s)) => s != ""
    case Some(UserJson(_)) => true
  }

  datatype AuthState = AuthState(user: Option<User>, isAuthenticated: bool, isLoading: bool,
                                 storage: map<string, Stored>)

  /** Every key other than the token and the user data is as it was. */
  ghost predicate OtherKeysKept(before: map<string, Stored>, after: map<string, Stored>) {
    forall k :: k != TokenKey && k != UserDataKey ==> Get(after, k) == Get(before, k)
  }

  /** The provider as mounted: no user, still loading, authenticated exactly when a token is stored. */
  function Initial(storage: map<string, Stored>): (st: AuthState)
    ensures st.user == None && st.isLoading && st.storage == storage
    ensures st.isAuthenticated <==> Truthy(Get(storage, TokenKey))
  {
    AuthState(None, Truthy(Get(storage, TokenKey)), true, storage)
  }

  /** The server's answer to the token check: the user, or a failure with its HTTP status if any. */
  datatype VerifyReply = Verified(user: User) | VerifyFailed(status: Option<int>)

  /**
   * `verifyAuth`: with no token nothing but the loading flag changes. With a token, a
   * verified user signs in; a 401 drops the token and signs out; any other failure keeps
   * the session, restoring the user from the stored user data when there is one.
   * Loading is over on every path.
   */
  function Verify(st: AuthState, reply: VerifyReply): (next: AuthState)
    ensures !next.isLoading
    ensures OtherKeysKept(st.storage, next.storage)
    ensures !Truthy(Get(st.storage, TokenKey)) ==> next == st.(isLoading := false)
    ensures Truthy(Get(st.storage, TokenKey)) && reply.Verified? ==>
              next == st.(user := Some(reply.user), isAuthenticated := true, isLoading := false)
    ensures Truthy(Get(st.storage, TokenKey)) && reply == VerifyFailed(Some(401)) ==>
              && next.user == None && !next.isAuthenticated
              && next.storage == st.storage - {TokenKey}
    ensures Truthy(Get(st.storage, TokenKey)) && reply.VerifyFailed? && reply.status != Some(401) ==>
              && next.isAuthenticated && next.storage == st.storage
              && next.user == (match Get(st.storage, UserDataKey)
                               case Some(UserJson(u)) => Some(u)
                               case _ => st.user)
  {
    if !Truthy(Get(st.storage, TokenKey)) then st.(isLoading := false)
    else match reply
      case Verified(u) => st.(user := Some(u), isAuthenticated := true, isLoading := false)
      case VerifyFailed(status) =>
        if status == Some(401) then
          AuthState(None, false, false, st.storage - {TokenKey})
        else
          var restored := match Get(st.storage, UserDataKey)
                          case Some(UserJson(u)) => Some(u)
                          case _ => st.user;
          st.(user := restored, isAuthenticated := true, isLoading := false)
  }

  /**
   * The server's answer to a login or registration: a token and the user, or a rejection.
   * `evictsToken` is the request layer's own rule, which drops the stored token when a 401
   * says the token expired.
   */
  datatype AuthReply = Issued(token: string, user: User) | Rejected(status: Option<int>, evictsToken: bool)

  /** Why `login` or `register` threw. */
  datatype AuthError = MissingToken(message: string) | RequestFailed(status: Option<int>)

  datatype AuthResult = AuthResult(state: AuthState, error: Option<AuthError>)

  /**
   * The body shared by `login` and `register`: a non-empty token is stored with the
   * user's data and signs the user in; an empty token or a rejection signs out and throws
   * (`missingToken` is the text thrown for an empty token).
   */
  function Authenticate(st: AuthState, reply: AuthReply, missingToken: string): (r: AuthResult)
    ensures r.state.isLoading == st.isLoading
    ensures OtherKeysKept(st.storage, r.state.storage)
    ensures r.error == None <==> reply.Issued? && reply.token != ""
    ensures r.error == None ==>
              && r.state.user == Some(reply.user) && r.state.isAuthenticated
              && r.state.storage == st.storage[TokenKey := Text(reply.token)][UserDataKey := UserJson(reply.user)]
    ensures r.error != None ==> r.state.user == None && !r.state.isAuthenticated
    ensures reply.Issued? && reply.token == "" ==>
              r.error == Some(MissingToken(missingToken)) && r.state.storage == st.storage
    ensures reply.Rejected? ==>
              && r.error == Some(RequestFailed(reply.status))
              && r.state.storage == (if reply.evictsToken then st.storage - {TokenKey} else st.storage)
  {
    match reply
    case Issued(token, u) =>
      if token != "" then
        var storage := st.storage[TokenKey := Text(token)][UserDataKey := UserJson(u)];
        AuthResult(st.(user := Some(u), isAuthenticated := true, storage := storage), None)
      else
        AuthResult(st.(user := None, isAuthenticated := false), Some(MissingToken(missingToken)))
    case Rejected(status, evicts) =>
      var storage := if evicts then st.storage - {TokenKey} else st.storage;
      AuthResult(st.(user := None, isAuthenticated := false, storage := storage), Some(RequestFailed(status)))
  }

  /** `logout`: both keys go, the user is cleared and the session is no longer authenticated. */
  function Logout(st: AuthState): (next: AuthState)
    ensures next.user == None && !next.isAuthenticated && next.isLoading == st.isLoading
    ensures TokenKey !in next.storage && UserDataKey !in next.storage
    ensures OtherKeysKept(st.storage, next.storage)
  {
    AuthState(None, false, st.isLoading, st.storage - {TokenKey, UserDataKey})
  }

  /**
   * What the provider keeps consistent: an authenticated session always has a token
   * stored, and a known user always belongs to an authenticated session.
   */
  predicate Consistent(st: AuthState) {
    && (st.isAuthenticated ==> Truthy(Get(st.storage, TokenKey)))
    && (st.user.Some? ==> st.isAuthenticated)
  }

  datatype Step = VerifyStep(verify: VerifyReply) | LoginStep(login: AuthReply)
                | RegisterStep(register: AuthReply) | LogoutStep

  function Apply(st: AuthState, step: Step): AuthState {
    match step
    case VerifyStep(v) => Verify(st, v)
    case LoginStep(a) => Authenticate(st, a, LoginMissingToken).state
    case RegisterStep(a) => Authenticate(st, a, RegisterMissingToken).state
    case LogoutStep => Logout(st)
  }

  /** The state after a sequence of steps, in order. */
  function Run(st: AuthState, steps: seq<Step>): AuthState
    decreases |steps|
  {
    if steps == [] then st else Run(Apply(st, steps[0]), steps[1..])
  }

  /** Each step keeps the provider consistent. */
  lemma {:induction false} StepKeepsConsistent(st: AuthState, step: Step)
    requires Consistent(st)
    ensures Consistent(Apply(st, step))
  {
    match step
    case VerifyStep(v) =>
    case LoginStep(a) =>
    case RegisterStep(a) =>
    case LogoutStep =>
  }

  /** The provider is consistent when mounted and after any sequence of replies and sign-outs. */
  lemma {:induction false} RunKeepsConsistent(storage: map<string, Stored>, steps: seq<Step>)
    ensures Consistent(Run(Initial(storage), steps))
  {
    RunFromConsistent(Initial(storage), steps);
  }

  lemma {:induction false} RunFromConsistent(st: AuthState, steps: seq<Step>)
    requires Consistent(st)
    ensures Consistent(Run(st, steps))
    decreases |steps|
  {
    if steps != [] {
      StepKeepsConsistent(st, steps[0]);
      RunFromConsistent(Apply(st, steps[0]), steps[1..]);
    }
  }

  /**
   * After signing in, a start-up check that fails for any reason but a 401 (the server is
   * unreachable, say) keeps the user signed in, with the data saved at sign-in.
   */
  lemma {:induction false} OfflineCheckKeepsSignedInUser(st: AuthState, token: string, u: User,
                                                         status: Option<int>)
    requires token != "" && status != Some(401)
    ensures var signedIn := Authenticate(st, Issued(token, u), LoginMissingToken).state;
            var checked := Verify(signedIn, VerifyFailed(status));
            checked.user == Some(u) && checked.isAuthenticated && checked.storage == signedIn.storage
  {
    var signedIn := Authenticate(st, Issued(token, u), LoginMissingToken).state;
    assert Get(signedIn.storage, TokenKey) == Some(Text(token));
    assert Get(signedIn.storage, UserDataKey) == Some(UserJson(u));
  }

  /** Once signed out, no start-up check can sign the user back in, whatever the server says. */
  lemma {:induction false} LogoutIsFinalForVerify(st: AuthState, reply: VerifyReply)
    ensures var checked := Verify(Logout(st), reply);
            checked.user == None && !checked.isAuthenticated && TokenKey !in checked.storage
  {
    assert Get(Logout(st).storage, TokenKey) == None;
  }

  /** A 401 on the start-up check ends the session for good: checking again changes nothing more. */
  lemma {:induction false} RejectedTokenStaysRejected(st: AuthState, again: VerifyReply)
    requires Truthy(Get(st.storage, TokenKey))
    ensures var once := Verify(st, VerifyFailed(Some(401)));
            Verify(once, again) == once
  {
    var once := Verify(st, VerifyFailed(Some(401)));
    assert Get(once.storage, TokenKey) == None;
  }

  /** The provider component, with storage as one of its fields. */
  class AuthProvider {
    var user: Option<User>
    var isAuthenticated: bool
    var isLoading: bool
    var storage: map<string, Stored>

    function State(): AuthState
      reads this
    {
      AuthState(user, isAuthenticated, isLoading, storage)
    }

    constructor (stored: map<string, Stored>)
      ensures State() == Initial(stored)
    {
      user := None;
      isLoading := true;
      isAuthenticated := Truthy(Get(stored, TokenKey));
      storage := stored;
    }

    /** `verifyAuth`, run once the provider is mounted, with the server's reply as input. */
    method VerifyAuth(reply: VerifyReply)
      modifies this
      ensures State() == Verify(old(State()), reply)
    {
      var token := Get(storage, TokenKey);
      if Truthy(token) {
        match reply {
          case Verified(u) =>
            user := Some(u);
            isAuthenticated := true;
          case VerifyFailed(status) =>
            if status == Some(401) {
              storage := storage - {TokenKey};
              user := None;
              isAuthenticated := false;
            } else {
              var saved := Get(storage, UserDataKey);
              if saved.Some? && saved.value.UserJson? {
                user := Some(saved.value.user);
              }
              isAuthenticated := true;
            }
        }
      }
      isLoading := false;
    }

    method SignIn(reply: AuthReply, missingToken: string) returns (error: Option<AuthError>)
      modifies this
      ensures var r := Authenticate(old(State()), reply, missingToken);
              State() == r.state && error == r.error
    {
      match reply {
        case Issued(token, u) =>
          if token != "" {
            storage := storage[TokenKey := Text(token)][UserDataKey := UserJson(u)];
            user := Some(u);
            isAuthenticated := true;
            error := None;
          } else {
            user := None;
            isAuthenticated := false;
            error := Some(MissingToken(missingToken));
          }
        case Rejected(status, evicts) =>
          if evicts {
            storage := storage - {TokenKey};
          }
          user := None;
          isAuthenticated := false;
          error := Some(RequestFailed(status));
      }
    }

    /** `login`: a non-`None` error is the exception it throws. */
    method Login(reply: AuthReply) returns (error: Option<AuthError>)
      modifies this
      ensures var r := Authenticate(old(State()), reply, LoginMissingToken);
              State() == r.state && error == r.error
    {
      error := SignIn(reply, LoginMissingToken);
    }

    /** `register`: the same steps as `login`, with its own message for a missing token. */
    method Register(reply: AuthReply) returns (error: Option<AuthError>)
      modifies this
      ensures var r := Authenticate(old(State()), reply, RegisterMissingToken);
              State() == r.state && error == r.error
    {
      error := SignIn(reply, RegisterMissingToken);
    }

    method LogOut()
      modifies this
      ensures State() == Logout(old(State()))
    {
      storage := storage - {TokenKey, UserDataKey};
      user := None;
      isAuthenticated := false;
    }
  }
}
