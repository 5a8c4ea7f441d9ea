/**
 * The ZKTeco session (src/lib/zktecoAuth.ts): the authentication state kept by the singleton
 * `ZKTecoAuth`, the copy of it persisted under `zktecoAuthState`, and the tokens last handed to
 * the API client. Every call into the API client arrives as a reply parameter (a response or
 * a thrown error); `validateDemoCredentials` arrives as its result, the demo user or none.
 */
module ZKTeco {
  import opened Wrappers
  import opened Text

  datatype Role = AdminRole | ManagementRole | GateRole | StaffRole

  /** A device user; `userId` is the `user_id` field. */
  datatype User = User(id: int, username: string, role: Role, name: string, userId: string, privilege: int)

  /** Access and refresh tokens; `None` is `null` (or `undefined` for an omitted argument). */
  datatype Tokens = Tokens(access: Option<string>, refresh: Option<string>)

  datatype DeviceStatus = DeviceStatus(isConnected: bool, lastSync: Option<string>)

  datatype AuthState = AuthState(isAuthenticated: bool, user: Option<User>, tokens: Tokens, deviceStatus: DeviceStatus)

  /** The signed-out state: no user, no tokens, device disconnected and never synced. */
  const DefaultState: AuthState :=
    AuthState(false, None, Tokens(None, None), DeviceStatus(false, None))

  /** The `zktecoAuthState` entry of local storage: absent (or empty), unparsable, or a saved state. */
  datatype StoredEntry = Missing | Unreadable | Entry(saved: AuthState)

  /** `getZKTecoAuthState`: the saved state when there is one that parses, the default otherwise. */
  function LoadState(entry: StoredEntry): (s: AuthState)
    ensures entry.Entry? ==> s == entry.saved
    ensures !entry.Entry? ==> s == DefaultState
  {
    match entry
    case Entry(saved) => saved
    case _ => DefaultState
  }

  /**
   * The session shape every operation keeps: authenticated exactly when a user is present, and
   * an authenticated session always holds an access token.
   */
  predicate Consistent(s: AuthState) {
    && (s.isAuthenticated <==> s.user.Some?)
    && (s.isAuthenticated ==> Truthy(s.tokens.access))
  }

  lemma DefaultStateConsistent()
    ensures Consistent(DefaultState)
    ensures LoadState(Missing) == DefaultState && LoadState(Unreadable) == DefaultState
  {
  }

  /** `authenticateJWT`: it throws, or answers with possibly missing fields. */
  datatype JwtReply = JwtThrows | JwtResponse(access: Option<string>, refresh: Option<string>, user: Option<User>)

  /** `authenticateStaff`. */
  datatype StaffReply = StaffThrows | StaffResponse(token: Option<string>, user: Option<User>)

  /** `refreshToken`. */
  datatype RefreshReply = RefreshThrows | RefreshResponse(access: Option<string>)

  /** `getDeviceStatus`. */
  datatype StatusReply = StatusThrows | StatusResponse(isConnected: bool, lastSync: Option<string>)

  /** `syncDevice`. */
  datatype SyncReply = SyncThrows | SyncResponse(success: bool)

  /** The JWT answer is used only when access, refresh and user are all present. */
  predicate JwtAccepted(r: JwtReply) {
    r.JwtResponse? && Truthy(r.access) && Truthy(r.refresh) && r.user.Some?
  }

  /** The staff answer is used only when token and user are both present. */
  predicate StaffAccepted(r: StaffReply) {
    r.StaffResponse? && Truthy(r.token) && r.user.Some?
  }

  const DemoToken: string := "demo-token"
  const AuthFailedMessage: string := "Authentication failed. Please check your credentials."

  /** The three ways `authenticate` can succeed, and its failure. */
  datatype AuthPath = ViaJwt | ViaStaff | ViaDemo | NoPath

  /** The fallback chain: the first of JWT, staff token and demo credentials that succeeds. */
  function ChosenPath(jwt: JwtReply, staff: StaffReply, demo: Option<User>): (p: AuthPath)
    ensures p == ViaJwt <==> JwtAccepted(jwt)
    ensures p == ViaStaff <==> !JwtAccepted(jwt) && StaffAccepted(staff)
    ensures p == ViaDemo <==> !JwtAccepted(jwt) && !StaffAccepted(staff) && demo.Some?
    ensures p == NoPath <==> !JwtAccepted(jwt) && !StaffAccepted(staff) && demo.None?
  {
    if JwtAccepted(jwt) then ViaJwt
    else if StaffAccepted(staff) then ViaStaff
    else if demo.Some? then ViaDemo
    else NoPath
  }

  /** The JWT and staff answers are ignored once an earlier path succeeds. */
  lemma EarlierPathWins(jwt: JwtReply, staff: StaffReply, staff': StaffReply, demo: Option<User>, demo': Option<User>)
    ensures JwtAccepted(jwt) ==> ChosenPath(jwt, staff, demo) == ChosenPath(jwt, staff', demo')
    ensures StaffAccepted(staff) ==> ChosenPath(jwt, staff, demo) == ChosenPath(jwt, staff, demo')
  {
  }

  class ZKTecoAuth {
    /** The private `state` field. */
    var state: AuthState
    /** The `zktecoAuthState` entry of local storage. */
    var persisted: StoredEntry
    /** The tokens last passed to `zktecoAPI.setTokens` (both `None` after `clearTokens`). */
    var apiTokens: Tokens

    /** Loads the saved state and hands its tokens to the API client when there is an access token. */
    constructor(stored: StoredEntry, apiTokens0: Tokens)
      ensures state == LoadState(stored) && persisted == stored
      ensures apiTokens == if Truthy(LoadState(stored).tokens.access) then LoadState(stored).tokens else apiTokens0
    {
      var loaded := LoadState(stored);
      state := loaded;
      persisted := stored;
      apiTokens := apiTokens0;
      if Truthy(loaded.tokens.access) {
        apiTokens := loaded.tokens;
      }
    }

    /**
     * `authenticate`: on the first successful path the session becomes authenticated with that
     * path's user and tokens, keeps its device status and is saved; the demo path does not hand
     * its token to the API client. When every path fails nothing changes and an error is raised.
     */
    method Authenticate(jwt: JwtReply, staff: StaffReply, demo: Option<User>) returns (r: Result<User, string>)
      modifies this
      ensures ChosenPath(jwt, staff, demo) == ViaJwt ==>
                && r == Ok(jwt.user.value)
                && state == AuthState(true, jwt.user, Tokens(jwt.access, jwt.refresh), old(state).deviceStatus)
                && apiTokens == state.tokens && persisted == Entry(state)
      ensures ChosenPath(jwt, staff, demo) == ViaStaff ==>
                && r == Ok(staff.user.value)
                && state == AuthState(true, staff.user, Tokens(staff.token, None), old(state).deviceStatus)
                && apiTokens == state.tokens && persisted == Entry(state)
      ensures ChosenPath(jwt, staff, demo) == ViaDemo ==>
                && r == Ok(demo.value)
                && state == AuthState(true, demo, Tokens(Some(DemoToken), None), old(state).deviceStatus)
                && apiTokens == old(apiTokens) && persisted == Entry(state)
      ensures ChosenPath(jwt, staff, demo) == NoPath ==>
                r == Err(AuthFailedMessage) && unchanged(this)
      ensures r.Ok? ==> Consistent(state) && state.user == Some(r.value)
      ensures r.Ok? <==> ChosenPath(jwt, staff, demo) != NoPath
    {
      if JwtAccepted(jwt) {
        state := AuthState(true, jwt.user, Tokens(jwt.access, jwt.refresh), state.deviceStatus);
        apiTokens := Tokens(jwt.access, jwt.refresh);
        persisted := Entry(state);
        return Ok(jwt.user.value);
      }
      if StaffAccepted(staff) {
        state := AuthState(true, staff.user, Tokens(staff.token, None), state.deviceStatus);
        apiTokens := Tokens(staff.token, None);
        persisted := Entry(state);
        return Ok(staff.user.value);
      }
      if demo.Some? {
        state := AuthState(true, demo, Tokens(Some(DemoToken), None), state.deviceStatus);
        persisted := Entry(state);
        return Ok(demo.value);
      }
      return Err(AuthFailedMessage);
    }

    /** `logout`: back to the default state, tokens cleared in the client, saved entry removed. */
    method Logout()
      modifies this
      ensures state == DefaultState && apiTokens == Tokens(None, None) && persisted == Missing
      ensures Consistent(state)
    {
      state := DefaultState;
      apiTokens := Tokens(None, None);
      persisted := Missing;
    }

    /**
     * What `refreshAuth` does: nothing without a refresh token; a log-out when the call throws;
     * a new access token (and nothing else new) when the answer carries one; nothing otherwise.
     */
    twostate predicate Refreshed(reply: RefreshReply, ok: bool)
      reads this
    {
      if !Truthy(old(state).tokens.refresh) then !ok && unchanged(this)
      else match reply
        case RefreshThrows =>
          !ok && state == DefaultState && apiTokens == Tokens(None, None) && persisted == Missing
        case RefreshResponse(access) =>
          if Truthy(access) then
            && ok
            && state == old(state).(tokens := old(state).tokens.(access := access))
            && apiTokens == state.tokens && persisted == Entry(state)
          else !ok && unchanged(this)
    }

    /** `refreshAuth`. */
    method RefreshAuth(reply: RefreshReply) returns (ok: bool)
      modifies this
      ensures Refreshed(reply, ok)
      ensures ok ==> state.tokens.access == reply.access && state.user == old(state).user
      ensures old(Consistent(state)) ==> Consistent(state)
    {
      if !Truthy(state.tokens.refresh) {
        return false;
      }
      match reply
      case RefreshThrows =>
        Logout();
        return false;
      case RefreshResponse(access) =>
        if Truthy(access) {
          state := state.(tokens := state.tokens.(access := access));
          apiTokens := Tokens(access, state.tokens.refresh);
          persisted := Entry(state);
          return true;
        }
        return false;
    }

    /**
     * `checkDeviceStatus`: an answer replaces the device status (an empty last-sync becomes
     * null); a failure marks the device disconnected and keeps the last sync. Either way the
     * state is saved and only the device status changes.
     */
    method CheckDeviceStatus(reply: StatusReply) returns (connected: bool)
      modifies this
      ensures reply.StatusResponse? ==>
                && connected == reply.isConnected
                && state == old(state).(deviceStatus := DeviceStatus(reply.isConnected,
                                                                     if Truthy(reply.lastSync) then reply.lastSync else None))
      ensures reply.StatusThrows? ==>
                !connected && state == old(state).(deviceStatus := old(state).deviceStatus.(isConnected := false))
      ensures persisted == Entry(state) && apiTokens == old(apiTokens)
      ensures old(Consistent(state)) ==> Consistent(state)
    {
      match reply
      case StatusResponse(isConnected, lastSync) =>
        state := state.(deviceStatus := DeviceStatus(isConnected, if Truthy(lastSync) then lastSync else None));
        persisted := Entry(state);
        return isConnected;
      case StatusThrows =>
        state := state.(deviceStatus := state.deviceStatus.(isConnected := false));
        persisted := Entry(state);
        return false;
    }

    /** `syncDevice`: only a successful sync records `now` as the last sync and saves the state. */
    method SyncDevice(reply: SyncReply, now: string) returns (success: bool)
      modifies this
      ensures success <==> reply == SyncResponse(true)
      ensures success ==> state == old(state).(deviceStatus := old(state).deviceStatus.(lastSync := Some(now)))
                          && persisted == Entry(state) && apiTokens == old(apiTokens)
      ensures !success ==> unchanged(this)
      ensures old(Consistent(state)) ==> Consistent(state)
    {
      match reply
      case SyncThrows =>
        return false;
      case SyncResponse(ok) =>
        if ok {
          state := state.(deviceStatus := state.deviceStatus.(lastSync := Some(now)));
          persisted := Entry(state);
        }
        return ok;
    }

    /**
     * `ensureValidToken`: false when signed out, true when an access token is held, and the
     * outcome of `refreshAuth` otherwise. On a consistent session it never refreshes.
     */
    method EnsureValidToken(reply: RefreshReply) returns (valid: bool)
      modifies this
      ensures !old(state).isAuthenticated ==> !valid && unchanged(this)
      ensures old(state).isAuthenticated && Truthy(old(state).tokens.access) ==> valid && unchanged(this)
      ensures old(state).isAuthenticated && !Truthy(old(state).tokens.access) ==> Refreshed(reply, valid)
      ensures old(Consistent(state)) ==> valid == old(state).isAuthenticated && unchanged(this)
    {
      if !state.isAuthenticated {
        return false;
      }
      if Truthy(state.tokens.access) {
        return true;
      }
      valid := RefreshAuth(reply);
    }
  }
}
