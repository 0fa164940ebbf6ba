/** The session synchroniser of `src/contexts/AuthContext.tsx`: the token and the
    serialised profile in local storage, and the signed-in profile in memory. */
module AuthContext {
  import opened Common
  import opened Api
  import opened LocalStorage
  import opened ProfileJson

  const LOGIN_FAILED := "Login failed"
  const REGISTRATION_FAILED := "Registration failed"
  const PASSWORD_CHANGE_FAILED := "Password change failed"

  /** The `user` record of an `AuthResponse`. */
  datatype AuthUser = AuthUser(name: string, email: string, role: string)

  /** `AuthResponse`: the profile and the session token. */
  datatype AuthBody = AuthBody(user: AuthUser, token: string)

  /** `{ success, error? }` */
  datatype AuthResult = AuthResult(success: bool, error: Option<string>)

  /** The login answer carries no id, so the email stands in for it. */
  function ProfileOf(u: AuthUser): (p: User)
    ensures p.id == u.email && p.email == u.email && p.name == u.name && p.role == u.role
  {
    User(u.email, u.name, u.email, u.role)
  }

  /** The result of a call that failed: the error's message, or the fallback when what
      was thrown is not an `Error`. */
  function Failure(t: Thrown, fallback: string): (r: AuthResult)
    ensures !r.success && r.error.Some?
    ensures r.error.value == if t.ErrorObject? then t.message else fallback
  {
    AuthResult(false, Some(MessageOr(t, fallback)))
  }

  /** The entries a successful sign-in or sign-up writes. */
  function SignedIn(entries: map<string, string>, body: AuthBody): (r: map<string, string>)
    ensures r.Keys == entries.Keys + {TOKEN_KEY, USER_KEY}
    ensures Lookup(r, TOKEN_KEY) == Some(body.token)
    ensures Lookup(r, USER_KEY) == Some(EncodeUser(ProfileOf(body.user)))
    ensures forall k :: k in entries && k != TOKEN_KEY && k != USER_KEY ==> r[k] == entries[k]
  {
    entries[TOKEN_KEY := body.token][USER_KEY := EncodeUser(ProfileOf(body.user))]
  }

  class AuthStore {
    const store: Storage
    var user: Option<User>
    var isLoading: bool

    /** Signed out and loading, until the init effect has run. */
    constructor (store: Storage)
      ensures this.store == store
      ensures user == None && isLoading
    {
      this.store := store;
      user := None;
      isLoading := true;
    }

    /** The init effect. A profile is restored only when both a profile and a token
        are stored. A profile that does not parse removes both keys, and so does a
        failed verification of the token, which also signs the restored user out.
        `parse` stands for `JSON.parse`, `None` meaning that it throws. */
    method Init(parse: string -> Option<User>, verify: Response<()>) returns (sent: seq<Request>)
      modifies this, store
      ensures !isLoading
      ensures var stored, token := Lookup(old(store.entries), USER_KEY), Lookup(old(store.entries), TOKEN_KEY);
              if !(Truthy(stored) && Truthy(token)) then
                sent == [] && user == old(user) && store.entries == old(store.entries)
              else if parse(stored.value).None? then
                sent == [] && user == old(user) && store.entries == old(store.entries) - {USER_KEY, TOKEN_KEY}
              else if verify.Ok? then
                sent == [VerifyTokenRequest] && user == parse(stored.value) && store.entries == old(store.entries)
              else
                sent == [VerifyTokenRequest] && user == None
                && store.entries == old(store.entries) - {TOKEN_KEY, USER_KEY}
    {
      sent := [];
      var stored := store.GetItem(USER_KEY);
      var token := store.GetItem(TOKEN_KEY);
      if Truthy(stored) && Truthy(token) {
        match parse(stored.value) {
          case Some(parsed) =>
            user := Some(parsed);
            sent := [VerifyTokenRequest];
            if verify.Err? {
              store.RemoveItem(TOKEN_KEY);
              store.RemoveItem(USER_KEY);
              user := None;
            }
          case None =>
            store.RemoveItem(USER_KEY);
            store.RemoveItem(TOKEN_KEY);
        }
      }
      isLoading := false;
    }

    /** `login`: on success the token and the profile are stored and the profile is
        signed in; on failure nothing changes. */
    method Login(email: string, password: string, resp: Response<AuthBody>)
      returns (result: AuthResult, sent: seq<Request>)
      modifies this, store
      ensures sent == [SigninRequest(email, password)]
      ensures isLoading == old(isLoading)
      ensures resp.Ok? ==>
                result == AuthResult(true, None) && user == Some(ProfileOf(resp.body.user))
                && store.entries == SignedIn(old(store.entries), resp.body)
      ensures resp.Err? ==>
                result == Failure(resp.thrown, LOGIN_FAILED) && user == old(user) && store.entries == old(store.entries)
    {
      sent := [SigninRequest(email, password)];
      match resp {
        case Ok(body) =>
          var profile := ProfileOf(body.user);
          store.SetItem(TOKEN_KEY, body.token);
          store.SetItem(USER_KEY, EncodeUser(profile));
          user := Some(profile);
          result := AuthResult(true, None);
        case Err(t) =>
          result := Failure(t, LOGIN_FAILED);
      }
    }

    /** `register`: sends the password as its own confirmation; otherwise as `Login`. */
    method Register(name: string, email: string, password: string, phone: string, resp: Response<AuthBody>)
      returns (result: AuthResult, sent: seq<Request>)
      modifies this, store
      ensures sent == [SignupRequest(SignupData(name, email, password, password, phone))]
      ensures isLoading == old(isLoading)
      ensures resp.Ok? ==>
                result == AuthResult(true, None) && user == Some(ProfileOf(resp.body.user))
                && store.entries == SignedIn(old(store.entries), resp.body)
      ensures resp.Err? ==>
                result == Failure(resp.thrown, REGISTRATION_FAILED) && user == old(user)
                && store.entries == old(store.entries)
    {
      sent := [SignupRequest(SignupData(name, email, password, password, phone))];
      match resp {
        case Ok(body) =>
          var profile := ProfileOf(body.user);
          store.SetItem(TOKEN_KEY, body.token);
          store.SetItem(USER_KEY, EncodeUser(profile));
          user := Some(profile);
          result := AuthResult(true, None);
        case Err(t) =>
          result := Failure(t, REGISTRATION_FAILED);
      }
    }

    /** `logout`: signed out, and neither key is left in storage. */
    method Logout()
      modifies this, store
      ensures user == None && isLoading == old(isLoading)
      ensures store.entries == old(store.entries) - {TOKEN_KEY, USER_KEY}
      ensures !IsAuthenticated(store.entries)
    {
      user := None;
      store.RemoveItem(TOKEN_KEY);
      store.RemoveItem(USER_KEY);
    }

    /** `forgotPassword`: reports success whether or not the call succeeds, so as not
        to reveal which addresses have accounts. */
    method ForgotPassword(email: string, resp: Response<()>) returns (result: AuthResult, sent: seq<Request>)
      ensures result == AuthResult(true, None)
      ensures sent == [ForgotPasswordRequest(email)]
    {
      sent := [ForgotPasswordRequest(email)];
      result := AuthResult(true, None);
    }

    /** `changePassword`: sends the new password as its own confirmation and changes
        neither storage nor the signed-in profile. */
    method ChangePassword(currentPassword: string, newPassword: string, resp: Response<()>)
      returns (result: AuthResult, sent: seq<Request>)
      ensures sent == [ChangePasswordRequest(ChangePasswordData(currentPassword, newPassword, newPassword))]
      ensures resp.Ok? ==> result == AuthResult(true, None)
      ensures resp.Err? ==> result == Failure(resp.thrown, PASSWORD_CHANGE_FAILED)
    {
      sent := [ChangePasswordRequest(ChangePasswordData(currentPassword, newPassword, newPassword))];
      match resp {
        case Ok(_) =>
          result := AuthResult(true, None);
        case Err(t) =>
          result := Failure(t, PASSWORD_CHANGE_FAILED);
      }
    }
  }

  /** A session survives a reload: after a successful sign-in with a non-empty token,
      a fresh provider over the same storage restores the same profile, provided the
      token still verifies, and the cart and wishlist see a signed-in session. */
  method ReloadAfterLogin(store: Storage, email: string, password: string, resp: Response<AuthBody>,
                          verify: Response<()>)
    returns (restored: Option<User>)
    modifies store
    ensures resp.Ok? && resp.body.token != "" ==> IsAuthenticated(store.entries) == verify.Ok?
    ensures resp.Ok? && resp.body.token != "" && verify.Ok? ==> restored == Some(ProfileOf(resp.body.user))
    ensures resp.Ok? && resp.body.token != "" && verify.Err? ==> restored == None
  {
    var first := new AuthStore(store);
    var _, _ := first.Login(email, password, resp);
    var second := new AuthStore(store);
    if resp.Ok? {
      ParseEncodedUser(ProfileOf(resp.body.user));
    }
    var _ := second.Init(ParseUser, verify);
    restored := second.user;
  }
}
