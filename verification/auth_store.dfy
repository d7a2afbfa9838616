/** The authentication store: the `AuthState` record, the role-to-permission
    table read through it, and the transitions `initialize`, `login` and
    `logout` drive. `AuthService` is an oracle: each of its answers is a
    parameter, and each operation returns the service calls it made. */
module AuthStore {
  import opened Common

  /** `User`; `id` is `_id`. The dates are not modelled. `ruolo` is declared
      as 'ADMIN' | 'USER' but nothing checks it at run time, so any string. */
  datatype User = User(
    id: string,
    email: string,
    ruolo: string,
    nome: Option<string>,
    cognome: Option<string>,
    attivo: bool)

  /** `AuthState`. */
  datatype AuthState = AuthState(
    user: Option<User>,
    token: Option<string>,
    isAuthenticated: bool,
    isLoading: bool,
    error: Option<string>)

  /** The store starts out loading, with nobody signed in. */
  const INITIAL_STATE: AuthState := AuthState(None, None, false, true, None)

  datatype Permission =
    | ArticlesRead | ArticlesWrite | ArticlesDelete
    | PlantsRead | PlantsWrite | PlantsDelete
    | AffiliateProductsRead | AffiliateProductsWrite | AffiliateProductsDelete
    | UsersRead | UsersWrite | UsersDelete
    | DashboardView | SettingsManage

  const ADMIN: string := "ADMIN"
  const USER: string := "USER"

  /** `ROLE_PERMISSIONS[role] || []`: the two roles of the table, in the
      table's order; any other role has no permission. */
  function RolePermissions(role: string): seq<Permission>
  {
    if role == ADMIN then
      [ArticlesRead, ArticlesWrite, ArticlesDelete,
       PlantsRead, PlantsWrite, PlantsDelete,
       AffiliateProductsRead, AffiliateProductsWrite, AffiliateProductsDelete,
       UsersRead, UsersWrite, UsersDelete,
       DashboardView, SettingsManage]
    else if role == USER then
      [ArticlesRead, PlantsRead, AffiliateProductsRead]
    else []
  }

  /** ADMIN holds all fourteen permissions, each listed once. */
  lemma AdminHasEveryPermission()
    ensures |RolePermissions(ADMIN)| == 14
    ensures forall p :: p in RolePermissions(ADMIN)
    ensures forall i, j :: 0 <= i < j < 14 ==> RolePermissions(ADMIN)[i] != RolePermissions(ADMIN)[j]
  {
    var ps := RolePermissions(ADMIN);
    forall p
      ensures p in ps
    {
      match p
      case ArticlesRead => assert ps[0] == p;
      case ArticlesWrite => assert ps[1] == p;
      case ArticlesDelete => assert ps[2] == p;
      case PlantsRead => assert ps[3] == p;
      case PlantsWrite => assert ps[4] == p;
      case PlantsDelete => assert ps[5] == p;
      case AffiliateProductsRead => assert ps[6] == p;
      case AffiliateProductsWrite => assert ps[7] == p;
      case AffiliateProductsDelete => assert ps[8] == p;
      case UsersRead => assert ps[9] == p;
      case UsersWrite => assert ps[10] == p;
      case UsersDelete => assert ps[11] == p;
      case DashboardView => assert ps[12] == p;
      case SettingsManage => assert ps[13] == p;
    }
  }

  /** USER holds exactly the three read permissions on articles, plants and
      affiliate products, all of which ADMIN holds too. */
  lemma UserReadsOnly(p: Permission)
    ensures p in RolePermissions(USER) <==> p == ArticlesRead || p == PlantsRead || p == AffiliateProductsRead
    ensures p in RolePermissions(USER) ==> p in RolePermissions(ADMIN)
  {
  }

  /** `userPermissions`: nothing without a user, otherwise the role's list. */
  function UserPermissions(s: AuthState): (ps: seq<Permission>)
    ensures s.user.None? ==> ps == []
    ensures s.user.Some? && s.user.value.ruolo != ADMIN && s.user.value.ruolo != USER ==> ps == []
  {
    if s.user.None? then [] else RolePermissions(s.user.value.ruolo)
  }

  /** `hasPermission(p)`: whether the current user's role grants `p`. It
      looks only at `user`, not at `isAuthenticated`. */
  function HasPermission(s: AuthState, p: Permission): (b: bool)
    ensures s.user.None? ==> !b
    ensures s.user.Some? && s.user.value.ruolo == ADMIN ==> b
    ensures s.user.Some? && s.user.value.ruolo == USER ==>
              (b <==> p == ArticlesRead || p == PlantsRead || p == AffiliateProductsRead)
    ensures s.user.Some? && s.user.value.ruolo != ADMIN && s.user.value.ruolo != USER ==> !b
  {
    AdminHasEveryPermission();
    p in UserPermissions(s)
  }

  /** `hasRole(role)`: a user is present and has exactly that role. */
  function HasRole(s: AuthState, role: string): (b: bool)
    ensures b <==> s.user.Some? && s.user.value.ruolo == role
  {
    match s.user
    case None => false
    case Some(u) => u.ruolo == role
  }

  /** `isAdminUser()` is `hasRole('ADMIN')`. */
  function IsAdminUser(s: AuthState): bool
  {
    HasRole(s, ADMIN)
  }

  /** The derived `isAdmin` value, `$user?.ruolo === 'ADMIN'`. */
  function IsAdmin(s: AuthState): bool
  {
    s.user.Some? && s.user.value.ruolo == ADMIN
  }

  /** The two ways of asking agree, and an admin holds every permission a
      plain user holds. */
  lemma {:induction false} AdminViewsAgree(s: AuthState, p: Permission)
    ensures IsAdminUser(s) == IsAdmin(s)
    ensures IsAdminUser(s) ==> HasPermission(s, p)
    ensures HasRole(s, USER) && HasPermission(s, p) ==> HasPermission(s.(user := Some(s.user.value.(ruolo := ADMIN))), p)
  {
    if HasRole(s, USER) && HasPermission(s, p) {
      UserReadsOnly(p);
    }
  }

  /** The record tells the truth about the session: `isAuthenticated`
      exactly when both a user and a token are held. */
  predicate Consistent(s: AuthState)
  {
    s.isAuthenticated <==> s.user.Some? && s.token.Some?
  }

  /** `setAuthenticated(user, token)`; `isLoading` is left alone. */
  function Authenticated(s: AuthState, u: User, token: string): (r: AuthState)
    ensures Consistent(r) && r.isAuthenticated && r.error.None?
    ensures r.user == Some(u) && r.token == Some(token) && r.isLoading == s.isLoading
  {
    s.(user := Some(u), token := Some(token), isAuthenticated := true, error := None)
  }

  /** `setUnauthenticated()`; `isLoading` is left alone. */
  function Unauthenticated(s: AuthState): (r: AuthState)
    ensures Consistent(r) && !r.isAuthenticated && r.error.None?
    ensures r.user.None? && r.token.None? && r.isLoading == s.isLoading
  {
    s.(user := None, token := None, isAuthenticated := false, error := None)
  }

  /** `setError(message)`: the message kept, loading over, the session
      untouched. */
  function WithError(s: AuthState, message: string): (r: AuthState)
    ensures Consistent(s) ==> Consistent(r)
    ensures r.error == Some(message) && !r.isLoading
    ensures r.user == s.user && r.token == s.token && r.isAuthenticated == s.isAuthenticated
  {
    s.(error := Some(message), isLoading := false)
  }

  /** The calls the store makes into `AuthService`. */
  datatype ServiceCall = CheckSession | VerifyToken | GetToken | ClearSession | LoginCall | LogoutCall

  /** What a login request resolves with (`LoginResponse`). */
  datatype LoginResponse = LoginResponse(success: bool, user: User, token: string, message: string)

  /** The observable result of one action: the final record, the records
      announced in order, the service calls made in order, and what the
      action rejects with, if anything. */
  datatype AuthEffect = AuthEffect(state: AuthState, emitted: seq<AuthState>, calls: seq<ServiceCall>, thrown: Option<Failure>)

  const AUTH_ERROR: string := "Errore di autenticazione"
  const LOGIN_FAILED: string := "Login fallito"
  const LOGIN_ERROR: string := "Errore durante il login"

  /** `initialize()` in a browser. `probe` is how `AuthService.isAuthenticated()`
      answers (or what it throws), `verify` how `verifyToken()` settles (the
      user in its response) and `token` what `getToken()` then returns. */
  function InitializeEffect(s: AuthState, probe: Outcome<bool>, verify: Outcome<User>, token: string): (e: AuthEffect)
    ensures e.thrown.None? && |e.emitted| >= 2 && e.emitted[|e.emitted| - 1] == e.state
    // the `finally` always clears the loading flag
    ensures !e.state.isLoading && Consistent(e.state)
    // a stored session that the server confirms is restored
    ensures probe == Ok(true) && verify.Ok? ==>
              e.state.isAuthenticated && e.state.user == Some(verify.payload) && e.state.token == Some(token)
              && e.state.error.None? && e.calls == [CheckSession, VerifyToken, GetToken]
    // a stored session the server rejects is cleared, and the store signs out
    ensures probe == Ok(true) && verify.Err? ==>
              !e.state.isAuthenticated && e.state.user.None? && e.state.error.None?
              && e.calls == [CheckSession, VerifyToken, ClearSession]
    // no stored session: signed out without asking the server
    ensures probe == Ok(false) ==>
              !e.state.isAuthenticated && e.state.error.None? && e.calls == [CheckSession]
    // the check itself throws: the session is cleared too
    ensures probe.Err? ==> !e.state.isAuthenticated && e.calls == [CheckSession, ClearSession]
  {
    match probe
    case Err(f) =>
      var failed := WithError(s, ErrorMessage(f, AUTH_ERROR));
      var cleared := Unauthenticated(failed);
      var done := cleared.(isLoading := false);
      AuthEffect(done, [failed, cleared, done], [CheckSession, ClearSession], None)
    case Ok(false) =>
      var signedOut := Unauthenticated(s);
      var done := signedOut.(isLoading := false);
      AuthEffect(done, [signedOut, done], [CheckSession], None)
    case Ok(true) =>
      var checking := s.(isLoading := true, error := None);
      match verify
      case Ok(u) =>
        var signedIn := Authenticated(checking, u, token);
        var done := signedIn.(isLoading := false);
        AuthEffect(done, [checking, signedIn, done], [CheckSession, VerifyToken, GetToken], None)
      case Err(_) =>
        var signedOut := Unauthenticated(checking);
        var done := signedOut.(isLoading := false);
        AuthEffect(done, [checking, signedOut, done], [CheckSession, VerifyToken, ClearSession], None)
  }

  /** The `catch` of `initialize` records the error and then clears the
      session, and clearing the session also clears the error: when the
      session check throws, the message is written and wiped again before
      `initialize` returns, so it never survives. */
  lemma InitializeErrorNotKept(s: AuthState, f: Failure, verify: Outcome<User>, token: string)
    ensures var e := InitializeEffect(s, Err(f), verify, token);
            && e.emitted[0].error == Some(ErrorMessage(f, AUTH_ERROR))
            && e.state.error.None?
  {
  }

  /** `initialize()` ends every run in one of two consistent, settled
      records: signed in with the confirmed user, or signed out. */
  lemma {:induction false} InitializeSettles(s: AuthState, probe: Outcome<bool>, verify: Outcome<User>, token: string)
    ensures var e := InitializeEffect(s, probe, verify, token);
            || (verify.Ok? && e.state == AuthState(Some(verify.payload), Some(token), true, false, None))
            || e.state == AuthState(None, None, false, false, None)
  {
    var e := InitializeEffect(s, probe, verify, token);
    if !(probe == Ok(true) && verify.Ok?) {
      assert e.state.user.None? && e.state.token.None?;
    }
  }

  /** `login(credentials)`. `response` is how `AuthService.login` settles. A
      response that settles without `success` is turned into an `Error`
      carrying its message, or "Login fallito" when that is empty. */
  function LoginEffect(s: AuthState, response: Outcome<LoginResponse>): (e: AuthEffect)
    ensures e.calls == [LoginCall] && |e.emitted| >= 2 && e.emitted[|e.emitted| - 1] == e.state
    ensures e.emitted[0] == s.(isLoading := true, error := None)
    // the `finally` always clears the loading flag
    ensures !e.state.isLoading
    ensures Consistent(s) ==> Consistent(e.state)
    // success: signed in with the returned user and token, nothing thrown
    ensures response.Ok? && response.payload.success ==>
              && e.thrown.None? && e.state.isAuthenticated && e.state.error.None?
              && e.state.user == Some(response.payload.user) && e.state.token == Some(response.payload.token)
    // any failure: the message recorded, the session untouched, the error rethrown
    ensures e.thrown.Some? <==> !(response.Ok? && response.payload.success)
    ensures e.thrown.Some? ==>
              && e.state.error == Some(ErrorMessage(e.thrown.value, LOGIN_ERROR))
              && e.state.user == s.user && e.state.token == s.token && e.state.isAuthenticated == s.isAuthenticated
    ensures response.Err? ==> e.thrown == Some(response.failure)
  {
    var loading := s.(isLoading := true, error := None);
    var outcome: Outcome<LoginResponse> :=
      match response
      case Err(f) => Err(f)
      case Ok(r) =>
        if r.success then Ok(r)
        else Err(ErrorThrown(if r.message != "" then r.message else LOGIN_FAILED));
    match outcome
    case Ok(r) =>
      var signedIn := Authenticated(loading, r.user, r.token);
      var done := signedIn.(isLoading := false);
      AuthEffect(done, [loading, signedIn, done], [LoginCall], None)
    case Err(f) =>
      var failed := WithError(loading, ErrorMessage(f, LOGIN_ERROR));
      var done := failed.(isLoading := false);
      AuthEffect(done, [loading, failed, done], [LoginCall], Some(f))
  }

  /** A response without `success` rejects with its own message, or with
      "Login fallito" when the message is empty, and that is the message the
      record keeps. */
  lemma LoginRejectionMessage(s: AuthState, r: LoginResponse)
    requires !r.success
    ensures var e := LoginEffect(s, Ok(r));
            e.state.error == Some(if r.message != "" then r.message else LOGIN_FAILED)
  {
  }

  /** `logout()`. `serverFailure` is what `AuthService.logout` throws, if
      anything; either way the session is cleared. */
  function LogoutEffect(s: AuthState, serverFailure: Option<Failure>): (e: AuthEffect)
    ensures e.thrown.None? && e.calls == [LogoutCall, ClearSession] && |e.emitted| >= 2
    ensures e.emitted[0] == s.(isLoading := true, error := None) && e.emitted[|e.emitted| - 1] == e.state
    ensures e.state == AuthState(None, None, false, false, None)
  {
    var loading := s.(isLoading := true, error := None);
    var signedOut := Unauthenticated(loading);
    var done := signedOut.(isLoading := false);
    AuthEffect(done, [loading, signedOut, done], [LogoutCall, ClearSession], None)
  }

  /** Logging out ends in the same record whatever the server answered and
      whatever the record was. */
  lemma LogoutIgnoresServer(s1: AuthState, s2: AuthState, f1: Option<Failure>, f2: Option<Failure>)
    ensures LogoutEffect(s1, f1).state == LogoutEffect(s2, f2).state
  {
  }

  /** `AuthStoreManager` over the `authState` cell: the record, and the
      records announced to subscribers so far. */
  class AuthStoreManager {
    var state: AuthState
    ghost var history: seq<AuthState>

    ghost predicate Valid()
      reads this
    {
      Consistent(state)
    }

    constructor ()
      ensures Valid() && state == INITIAL_STATE && history == []
    {
      state := INITIAL_STATE;
      history := [];
    }

    method SetAuthenticated(u: User, token: string)
      modifies this
      ensures state == Authenticated(old(state), u, token) && history == old(history) + [state]
    {
      state := state.(user := Some(u), token := Some(token), isAuthenticated := true, error := None);
      history := history + [state];
    }

    method SetUnauthenticated()
      modifies this
      ensures state == Unauthenticated(old(state)) && history == old(history) + [state]
    {
      state := state.(user := None, token := None, isAuthenticated := false, error := None);
      history := history + [state];
    }

    method SetError(message: string)
      modifies this
      ensures state == WithError(old(state), message) && history == old(history) + [state]
    {
      state := state.(error := Some(message), isLoading := false);
      history := history + [state];
    }

    method ClearError()
      modifies this
      ensures old(Valid()) ==> Valid()
      ensures state == old(state).(error := None) && history == old(history) + [state]
    {
      state := state.(error := None);
      history := history + [state];
    }

    /** `clearAuth()`: the service's session cleared, then signed out. */
    method ClearAuth() returns (calls: seq<ServiceCall>)
      modifies this
      ensures calls == [ClearSession]
      ensures state == Unauthenticated(old(state)) && history == old(history) + [state]
    {
      calls := [ClearSession];
      SetUnauthenticated();
    }

    /** The `finally` of the three actions. */
    method SettleLoading()
      modifies this
      ensures state == old(state).(isLoading := false) && history == old(history) + [state]
    {
      state := state.(isLoading := false);
      history := history + [state];
    }

    method Initialize(probe: Outcome<bool>, verify: Outcome<User>, token: string) returns (calls: seq<ServiceCall>)
      modifies this
      ensures Valid()
      ensures var e := InitializeEffect(old(state), probe, verify, token);
              state == e.state && calls == e.calls && history == old(history) + e.emitted
    {
      calls := [CheckSession];
      match probe {
        case Err(f) =>
          SetError(ErrorMessage(f, AUTH_ERROR));
          var cleared := ClearAuth();
          calls := calls + cleared;
        case Ok(hasSession) =>
          if hasSession {
            state := state.(isLoading := true, error := None);
            history := history + [state];
            calls := calls + [VerifyToken];
            match verify {
              case Ok(u) =>
                calls := calls + [GetToken];
                SetAuthenticated(u, token);
              case Err(_) =>
                calls := calls + [ClearSession];
                SetUnauthenticated();
            }
          } else {
            SetUnauthenticated();
          }
      }
      SettleLoading();
    }

    method Login(response: Outcome<LoginResponse>) returns (calls: seq<ServiceCall>, thrown: Option<Failure>)
      modifies this
      ensures old(Valid()) ==> Valid()
      ensures var e := LoginEffect(old(state), response);
              state == e.state && calls == e.calls && thrown == e.thrown && history == old(history) + e.emitted
    {
      state := state.(isLoading := true, error := None);
      history := history + [state];
      calls := [LoginCall];
      var failure: Option<Failure> := None;
      match response {
        case Err(f) =>
          failure := Some(f);
        case Ok(r) =>
          if r.success {
            SetAuthenticated(r.user, r.token);
          } else {
            failure := Some(ErrorThrown(if r.message != "" then r.message else LOGIN_FAILED));
          }
      }
      if failure.Some? {
        SetError(ErrorMessage(failure.value, LOGIN_ERROR));
      }
      thrown := failure;
      SettleLoading();
    }

    method Logout(serverFailure: Option<Failure>) returns (calls: seq<ServiceCall>)
      modifies this
      ensures Valid()
      ensures var e := LogoutEffect(old(state), serverFailure);
              state == e.state && calls == e.calls && history == old(history) + e.emitted
    {
      state := state.(isLoading := true, error := None);
      history := history + [state];
      calls := [LogoutCall];
      var cleared := ClearAuth();
      calls := calls + cleared;
      SettleLoading();
    }
  }
}
