/**
 * The authentication state provider of the UI: it loads the persisted account
 * once, gives the HTTP client access when the account holds both tokens, fetches
 * the user's info, and builds the signed-in principal from it. The HTTP client's
 * responses are inputs; its access state and the requests it sends are recorded.
 */
module AuthState {
  import opened Wrappers

  const AccountKey := "account"
  const AuthenticationType := "AuthStateProvider"
  const UserInfoPath := "info"
  const ForgotPasswordPath := "forgot-password"
  const ResetPasswordPath := "reset-password"

  /** The persisted account. */
  datatype Account = Account(
    baseUri: string,
    email: string,
    accessToken: Option<string>,
    refreshToken: Option<string>,
    accessExpiry: Option<int>)
  {
    /** ClearAccess: the account without its tokens and expiry. */
    function ClearAccess(): (a: Account)
      ensures a.baseUri == baseUri && a.email == email
      ensures a.accessToken.None? && a.refreshToken.None? && a.accessExpiry.None?
    {
      this.(accessToken := None, refreshToken := None, accessExpiry := None)
    }

    /** SetAccess: the account with new tokens and expiry. */
    function SetAccess(access: string, refresh: string, expiry: int): (a: Account)
      ensures a.baseUri == baseUri && a.email == email
      ensures a.accessToken == Some(access) && a.refreshToken == Some(refresh) && a.accessExpiry == Some(expiry)
    {
      this.(accessToken := Some(access), refreshToken := Some(refresh), accessExpiry := Some(expiry))
    }
  }

  datatype UserInfo = UserInfo(userId: string, email: string, roles: seq<string>)

  /** The claim types configured in the identity options. */
  datatype ClaimTypes = ClaimTypes(userId: string, userName: string, email: string, role: string)

  datatype Claim = Claim(claimType: string, value: string)

  datatype Principal = Unauthenticated | Authenticated(claims: seq<Claim>, authenticationType: string)

  /** The HTTP client's access state: cleared, or the tokens and expiry it sends with. */
  datatype ClientAccess = NoAccess | Access(accessToken: Option<string>, refreshToken: Option<string>, expiry: int)

  datatype ResetPasswordRequest = ResetPasswordRequest(email: string, resetCode: string, newPassword: string)

  /** The tokens of a successful login response. */
  datatype LoginTokens = LoginTokens(accessToken: string, refreshToken: string)

  /** A request the provider sends through the HTTP client. */
  datatype Request =
    | LoginPost(serverUrl: string, email: string)
    | GetRequest(baseUri: string, path: string)
    | PostRequest(serverUrl: string, path: string, body: ResetPasswordRequest)

  datatype FormResult = Succeeded | Failed(message: string)

  datatype AuthError = NullReference

  /** `!string.IsNullOrEmpty(s)` */
  predicate NonEmpty(s: Option<string>)
  {
    s.Some? && s.value != ""
  }

  /**
   * The client access set after loading an account: both tokens present and
   * non-empty give access (with the default expiry when none is stored);
   * anything else clears it.
   */
  function AccessFor(account: Option<Account>): (access: ClientAccess)
    ensures access.Access? <==>
              account.Some? && NonEmpty(account.value.accessToken) && NonEmpty(account.value.refreshToken)
    ensures access.Access? ==>
              && access.accessToken == account.value.accessToken
              && access.refreshToken == account.value.refreshToken
              && access.expiry == account.value.accessExpiry.GetOr(0)
  {
    if account.Some? && NonEmpty(account.value.accessToken) && NonEmpty(account.value.refreshToken)
    then Access(account.value.accessToken, account.value.refreshToken, account.value.accessExpiry.GetOr(0))
    else NoAccess
  }

  /** An account persisted after logout gives no access when it is loaded again. */
  lemma ClearedAccountGivesNoAccess(a: Account)
    ensures AccessFor(Some(a.ClearAccess())) == NoAccess
  {
  }

  function RoleClaims(roleType: string, roles: seq<string>): (claims: seq<Claim>)
    ensures |claims| == |roles|
    ensures forall i :: 0 <= i < |roles| ==> claims[i] == Claim(roleType, roles[i])
  {
    seq(|roles|, i requires 0 <= i < |roles| => Claim(roleType, roles[i]))
  }

  /** The claims of a signed-in user: id, name (the email), email, then one role claim per role in order. */
  function ClaimsFor(types: ClaimTypes, info: UserInfo): (claims: seq<Claim>)
    ensures |claims| == 3 + |info.roles|
  {
    [Claim(types.userId, info.userId), Claim(types.userName, info.email), Claim(types.email, info.email)]
      + RoleClaims(types.role, info.roles)
  }

  /** The values of the claims of one type, in order (`FindAll(type)` on the identity). */
  function ValuesOfType(claims: seq<Claim>, claimType: string): (values: seq<string>)
    ensures |values| <= |claims|
  {
    if claims == [] then []
    else (if claims[0].claimType == claimType then [claims[0].value] else []) + ValuesOfType(claims[1..], claimType)
  }

  lemma {:induction false} ValuesOfTypeAppend(a: seq<Claim>, b: seq<Claim>, claimType: string)
    ensures ValuesOfType(a + b, claimType) == ValuesOfType(a, claimType) + ValuesOfType(b, claimType)
  {
    if a == [] {
      assert a + b == b;
    } else {
      var head := if a[0].claimType == claimType then [a[0].value] else [];
      assert (a + b)[0] == a[0] && (a + b)[1..] == a[1..] + b;
      assert ValuesOfType(a + b, claimType) == head + ValuesOfType(a[1..] + b, claimType);
      ValuesOfTypeAppend(a[1..], b, claimType);
      assert ValuesOfType(a, claimType) == head + ValuesOfType(a[1..], claimType);
    }
  }

  lemma {:induction false} ValuesOfRoleClaims(roleType: string, roles: seq<string>)
    ensures ValuesOfType(RoleClaims(roleType, roles), roleType) == roles
  {
    if roles != [] {
      assert RoleClaims(roleType, roles)[1..] == RoleClaims(roleType, roles[1..]);
      ValuesOfRoleClaims(roleType, roles[1..]);
    }
  }

  /**
   * When the role claim type differs from the other three, the principal's role
   * claims are exactly the user's roles, in order; the id, name and email claims
   * are the user's.
   */
  lemma ClaimsCarryUser(types: ClaimTypes, info: UserInfo)
    requires types.role != types.userId && types.role != types.userName && types.role != types.email
    ensures ValuesOfType(ClaimsFor(types, info), types.role) == info.roles
    ensures ClaimsFor(types, info)[..3] ==
              [Claim(types.userId, info.userId), Claim(types.userName, info.email), Claim(types.email, info.email)]
  {
    var fixed := [Claim(types.userId, info.userId), Claim(types.userName, info.email), Claim(types.email, info.email)];
    ValuesOfTypeAppend(fixed, RoleClaims(types.role, info.roles), types.role);
    assert ValuesOfType(fixed, types.role) == [] by {
      var last := [fixed[2]];
      assert last[1..] == [];
      assert ValuesOfType(last, types.role) == [];
      assert fixed[1..][1..] == last;
      assert ValuesOfType(fixed[1..], types.role) == [];
    }
    ValuesOfRoleClaims(types.role, info.roles);
  }

  /** The principal: unauthenticated unless user info is known. */
  function PrincipalFor(types: ClaimTypes, userInfo: Option<UserInfo>): (p: Principal)
    ensures p.Authenticated? <==> userInfo.Some?
    ensures p.Authenticated? ==>
              p.authenticationType == AuthenticationType && p.claims == ClaimsFor(types, userInfo.value)
  {
    if userInfo.Some? then Authenticated(ClaimsFor(types, userInfo.value), AuthenticationType) else Unauthenticated
  }

  /** The provider's fields, the persisted account and the HTTP client's state. */
  datatype AuthView = AuthView(
    isInitialized: bool,
    account: Option<Account>,
    userInfo: Option<UserInfo>,
    storedAccount: Option<Account>,
    access: ClientAccess,
    requests: seq<Request>)

  /** The next state refresh would read the persisted account. */
  predicate LoadsAccount(v: AuthView)
  {
    !v.isInitialized && v.account.None?
  }

  /** The next state refresh would ask the server for the user's info. */
  predicate FetchesUserInfo(v: AuthView)
  {
    v.account.Some? && v.userInfo.None?
  }

  /**
   * GetAuthenticationStateAsync's effect. `fetched` is the user-info response,
   * None when the request throws (the exception is swallowed).
   */
  function Refresh(v: AuthView, fetched: Option<UserInfo>): (w: AuthView)
    ensures !LoadsAccount(w)
    ensures w.storedAccount == v.storedAccount
    ensures v.requests <= w.requests && |w.requests| <= |v.requests| + 1
    ensures !LoadsAccount(v) ==> w.account == v.account && w.access == v.access && w.isInitialized == v.isInitialized
    ensures w.account.Some? && v.userInfo.None? ==>
              w.userInfo == fetched && w.requests == v.requests + [GetRequest(w.account.value.baseUri, UserInfoPath)]
    ensures !(w.account.Some? && v.userInfo.None?) ==> w.userInfo == v.userInfo && w.requests == v.requests
  {
    var loaded :=
      if LoadsAccount(v)
      then v.(account := v.storedAccount, access := AccessFor(v.storedAccount), isInitialized := true)
      else v;
    if FetchesUserInfo(loaded)
    then loaded.(userInfo := fetched, requests := loaded.requests + [GetRequest(loaded.account.value.baseUri, UserInfoPath)])
    else loaded
  }

  /** The persisted account is read by the first refresh at most: a later refresh keeps the account and the client access. */
  lemma AccountLoadedOnce(v: AuthView, first: Option<UserInfo>, second: Option<UserInfo>)
    ensures Refresh(Refresh(v, first), second).account == Refresh(v, first).account
    ensures Refresh(Refresh(v, first), second).access == Refresh(v, first).access
    ensures Refresh(Refresh(v, first), second).isInitialized == Refresh(v, first).isInitialized
  {
  }

  /** A refresh loads exactly when uninitialized without an account, and then sets client access from the stored tokens. */
  lemma RefreshLoadsStoredAccount(v: AuthView, fetched: Option<UserInfo>)
    requires LoadsAccount(v)
    ensures Refresh(v, fetched).isInitialized
    ensures Refresh(v, fetched).account == v.storedAccount
    ensures Refresh(v, fetched).access == AccessFor(v.storedAccount)
  {
  }

  /** User info is requested only with an account and no user info; once known it is kept and not requested again. */
  lemma UserInfoFetchedWhenMissing(v: AuthView, fetched: Option<UserInfo>)
    ensures Refresh(v, fetched).requests != v.requests <==> Refresh(v, fetched).account.Some? && v.userInfo.None?
    ensures v.userInfo.Some? ==> Refresh(v, fetched).userInfo == v.userInfo
    ensures Refresh(v, fetched).account.None? ==> Refresh(v, fetched).userInfo == v.userInfo
    ensures Refresh(v, fetched).account.Some? && v.userInfo.None? ==>
              && Refresh(v, fetched).userInfo == fetched
              && Refresh(v, fetched).requests == v.requests + [GetRequest(Refresh(v, fetched).account.value.baseUri, UserInfoPath)]
    ensures v.userInfo.None? && fetched.None? ==> Refresh(v, fetched).userInfo.None?
  {
  }

  /** SetAccount up to its notification: the account is adopted and persisted, and the client takes its tokens. */
  function SignedIn(v: AuthView, a: Account): (w: AuthView)
    ensures w.account == Some(a) && w.storedAccount == Some(a)
    ensures w.access == Access(a.accessToken, a.refreshToken, a.accessExpiry.GetOr(0))
    ensures w.userInfo == v.userInfo && w.requests == v.requests && w.isInitialized == v.isInitialized
  {
    v.(account := Some(a), storedAccount := Some(a), access := Access(a.accessToken, a.refreshToken, a.accessExpiry.GetOr(0)))
  }

  /**
   * After signing in, the refresh keeps the new account and the client's new
   * access, and the account is what a restarted provider loads, with the same access.
   */
  lemma SignInSticks(v: AuthView, a: Account, fetched: Option<UserInfo>)
    requires NonEmpty(a.accessToken) && NonEmpty(a.refreshToken)
    ensures Refresh(SignedIn(v, a), fetched).account == Some(a)
    ensures Refresh(SignedIn(v, a), fetched).access == AccessFor(Some(a))
    ensures Refresh(SignedIn(v, a), fetched).storedAccount == Some(a)
  {
  }

  /** Logout up to its notification: the user info is cleared, then the account loses its access and is persisted, and the client's access is cleared. */
  function LoggedOut(v: AuthView): (w: AuthView)
    requires v.account.Some?
    ensures w.userInfo.None? && w.access == NoAccess
    ensures w.account == w.storedAccount && w.account.Some?
    ensures w.account.value.accessToken.None? && w.account.value.refreshToken.None?
    ensures w.account.value == v.account.value.ClearAccess()
    ensures w.account.value.baseUri == v.account.value.baseUri && w.account.value.email == v.account.value.email
    ensures w.requests == v.requests && w.isInitialized == v.isInitialized
  {
    var cleared := Some(v.account.value.ClearAccess());
    v.(userInfo := None, account := cleared, storedAccount := cleared, access := NoAccess)
  }

  /** ResetPassword's endpoint: "forgot-password" when both the code and the new password are empty (null counting as empty). */
  function ResetPath(resetCode: Option<string>, newPassword: Option<string>): (path: string)
    ensures path == ForgotPasswordPath <==> resetCode.GetOr("") == "" && newPassword.GetOr("") == ""
    ensures path == ResetPasswordPath <==> resetCode.GetOr("") != "" || newPassword.GetOr("") != ""
  {
    if resetCode.GetOr("") == "" && newPassword.GetOr("") == "" then ForgotPasswordPath else ResetPasswordPath
  }

  class AuthStateProvider {
    var isInitialized: bool
    var account: Option<Account>
    var userInfo: Option<UserInfo>
    /** The account persisted under "account" in the secure configuration. */
    var storedAccount: Option<Account>
    /** The HTTP client's access state and the requests sent through it. */
    var access: ClientAccess
    var requests: seq<Request>
    /** The identity options' claim types. */
    const claimTypes: ClaimTypes

    constructor (storedAccount: Option<Account>, claimTypes: ClaimTypes)
      ensures View() == AuthView(false, None, None, storedAccount, NoAccess, [])
      ensures this.claimTypes == claimTypes
    {
      isInitialized := false;
      account := None;
      userInfo := None;
      this.storedAccount := storedAccount;
      access := NoAccess;
      requests := [];
      this.claimTypes := claimTypes;
    }

    function View(): AuthView
      reads this
    {
      AuthView(isInitialized, account, userInfo, storedAccount, access, requests)
    }

    /** GetAuthenticationStateAsync: load the account once, fetch the user info if missing, build the principal. */
    method GetAuthenticationStateAsync(fetched: Option<UserInfo>) returns (p: Principal)
      modifies this
      ensures View() == Refresh(old(View()), fetched)
      ensures p == PrincipalFor(claimTypes, userInfo)
    {
      if !isInitialized && account.None? {
        account := storedAccount;
        access := AccessFor(account);
        isInitialized := true;
      }
      if account.Some? && userInfo.None? {
        requests := requests + [GetRequest(account.value.baseUri, UserInfoPath)];
        userInfo := fetched;
      }
      p := PrincipalFor(claimTypes, userInfo);
    }

    /** CheckAuthenticated: refresh, then report whether user info is known. */
    method CheckAuthenticated(fetched: Option<UserInfo>) returns (authenticated: bool)
      modifies this
      ensures View() == Refresh(old(View()), fetched)
      ensures authenticated <==> userInfo.Some?
    {
      var _ := GetAuthenticationStateAsync(fetched);
      authenticated := userInfo.Some?;
    }

    /**
     * Logout. The user info is cleared first, so without an account the call
     * throws having cleared only that; otherwise the account is logged out and
     * persisted, and the notification refreshes the state.
     */
    method Logout(fetched: Option<UserInfo>) returns (r: Result<Principal, AuthError>)
      modifies this
      ensures old(account).None? ==> r == Err(NullReference) && View() == old(View()).(userInfo := None)
      ensures old(account).Some? ==>
                && View() == Refresh(LoggedOut(old(View())), fetched)
                && r == Ok(PrincipalFor(claimTypes, userInfo))
    {
      userInfo := None;
      if account.None? {
        return Err(NullReference);
      }
      account := Some(account.value.ClearAccess());
      storedAccount := account;
      access := NoAccess;
      var p := GetAuthenticationStateAsync(fetched);
      r := Ok(p);
    }

    /** SetAccount: adopt and persist the account, hand its tokens to the client, then refresh. */
    method SetAccount(a: Account, fetched: Option<UserInfo>) returns (p: Principal)
      modifies this
      ensures View() == Refresh(SignedIn(old(View()), a), fetched)
      ensures p == PrincipalFor(claimTypes, userInfo)
    {
      account := Some(a);
      storedAccount := account;
      access := Access(a.accessToken, a.refreshToken, a.accessExpiry.GetOr(0));
      p := GetAuthenticationStateAsync(fetched);
    }

    /**
     * Login: post the credentials; on success sign in with a new account for the
     * server and email holding the returned tokens (`expiry` is the absolute expiry
     * the account derives from the response and the clock); a client exception
     * becomes a failed form result.
     */
    method Login(serverUrl: string, email: string, response: Result<LoginTokens, string>, expiry: int,
                 fetched: Option<UserInfo>) returns (r: FormResult)
      modifies this
      ensures response.Err? ==>
                && r == Failed(response.error)
                && View() == old(View()).(requests := old(requests) + [LoginPost(serverUrl, email)])
      ensures response.Ok? ==>
                && r == Succeeded
                && View() == Refresh(SignedIn(old(View()).(requests := old(requests) + [LoginPost(serverUrl, email)]),
                                              Account(serverUrl, email, Some(response.value.accessToken),
                                                      Some(response.value.refreshToken), Some(expiry))), fetched)
    {
      requests := requests + [LoginPost(serverUrl, email)];
      if response.Err? {
        return Failed(response.error);
      }
      var account := Account(serverUrl, email, None, None, None);
      account := account.SetAccess(response.value.accessToken, response.value.refreshToken, expiry);
      var _ := SetAccount(account, fetched);
      r := Succeeded;
    }

    /** OnAccessRefresh: with an account, take the refreshed tokens into it and persist it; without one, nothing. */
    method OnAccessRefresh(accessToken: string, refreshToken: string, expiry: int)
      modifies this
      ensures old(account).None? ==> View() == old(View())
      ensures old(account).Some? ==>
                var a := Some(old(account).value.SetAccess(accessToken, refreshToken, expiry));
                View() == old(View()).(account := a, storedAccount := a)
    {
      if account.None? {
        return;
      }
      account := Some(account.value.SetAccess(accessToken, refreshToken, expiry));
      storedAccount := account;
    }

    /**
     * ResetPassword: post the request (nulls sent as empty strings) to the path
     * ResetPath chooses; a client exception becomes a failed form result.
     */
    method ResetPassword(serverUrl: string, email: string, resetCode: Option<string>, newPassword: Option<string>,
                         clientError: Option<string>) returns (r: FormResult)
      modifies this`requests
      ensures requests == old(requests) + [PostRequest(serverUrl, ResetPath(resetCode, newPassword),
                                           ResetPasswordRequest(email, resetCode.GetOr(""), newPassword.GetOr("")))]
      ensures r == (if clientError.Some? then Failed(clientError.value) else Succeeded)
    {
      var body := ResetPasswordRequest(email, resetCode.GetOr(""), newPassword.GetOr(""));
      var path := ResetPath(resetCode, newPassword);
      requests := requests + [PostRequest(serverUrl, path, body)];
      r := if clientError.Some? then Failed(clientError.value) else Succeeded;
    }
  }
}
