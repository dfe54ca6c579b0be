// The client token cache of client/src/lib/api.ts: two module-level token
// variables backed by `localStorage`, the login, registration, refresh and
// logout calls, and the single refresh-and-retry of `authenticatedFetch`.
// `localStorage` is a map from keys to strings; every network reply is a
// parameter, and each method returns the requests it sends, in order.
module Api {
  import opened Wrappers
  import opened Schema
  import Middleware

  const AccessKey: string := "accessToken"
  const RefreshKey: string := "refreshToken"
  const UserKey: string := "user"

  /** A request sent to the server, with the credential it carries. */
  datatype Call =
    | RefreshCall(refreshToken: string)
    | FetchCall(url: string, authorization: string)
    | LogoutCall(authorization: string)

  /** What a `fetch` gives: no reply at all (it throws), or a status. */
  datatype Reply = Unreachable | Answered(status: int)

  /** The reply to `POST /api/auth/refresh`. */
  datatype RefreshReply = RefreshUnreachable | RefreshRefused | Refreshed(access: string, refresh: string)

  /** The reply to a login or registration: `user` is the user object as
      `JSON.stringify` writes it. */
  datatype AuthReply =
    | AuthUnreachable
    | AuthRefused(error: Option<string>)
    | AuthAccepted(user: string, access: string, refresh: string)

  /** A thrown error: one with a message, or the network failure of `fetch`. */
  datatype Fault = Thrown(message: string) | NetworkFault

  /** `localStorage.getItem(key)`, null when the key is absent. */
  function Stored(storage: map<string, string>, key: string): (r: Option<string>)
    ensures r.Some? <==> key in storage
    ensures r.Some? ==> r.value == storage[key]
  {
    if key in storage then Some(storage[key]) else None
  }

  /** What `clearTokens` leaves of the storage. */
  function Cleared(storage: map<string, string>): (r: map<string, string>)
    ensures AccessKey !in r && RefreshKey !in r && UserKey !in r
    ensures forall k :: k in r <==> k in storage && k != AccessKey && k != RefreshKey && k != UserKey
    ensures forall k :: k in r ==> r[k] == storage[k]
  {
    storage - {AccessKey, RefreshKey, UserKey}
  }

  /** The `Authorization` header the client sends a token in. */
  function Bearer(token: string): (r: string)
    ensures Middleware.BearerToken(Some(r)) == Some(token)
  {
    Middleware.BearerRoundTrip(token);
    Middleware.Prefix + token
  }

  /** `getCurrentUser()`: the stored user text when it is present and not
      empty, otherwise null. */
  function CurrentUser(storage: map<string, string>): (r: Option<string>)
    ensures r.Some? <==> UserKey in storage && storage[UserKey] != ""
    ensures r.Some? ==> Stored(storage, UserKey) == r
  {
    if Truthy(Stored(storage, UserKey)) then Stored(storage, UserKey) else None
  }

  /** What a token getter returns: the cached token when it is truthy,
      otherwise whatever the storage holds under `key`. */
  function Cached(cache: Option<string>, storage: map<string, string>, key: string): (r: Option<string>)
    ensures Truthy(cache) ==> r == cache
    ensures !Truthy(cache) ==> r == Stored(storage, key)
  {
    if Truthy(cache) then cache else Stored(storage, key)
  }

  /** A second read of a token returns what the first one cached. */
  lemma CachedTwice(cache: Option<string>, storage: map<string, string>, key: string)
    ensures Cached(Cached(cache, storage, key), storage, key) == Cached(cache, storage, key)
  {
  }

  /** The module-level token variables and the browser storage. */
  class AuthClient {
    var accessToken: Option<string>
    var refreshToken: Option<string>
    var storage: map<string, string>

    /** The module as loaded: no cached tokens, whatever the storage holds. */
    constructor (storage: map<string, string>)
      ensures accessToken == None && refreshToken == None && this.storage == storage
    {
      accessToken := None;
      refreshToken := None;
      this.storage := storage;
    }

    /** What `getAccessToken()` would return now. */
    function AccessToken(): (r: Option<string>)
      reads this
    {
      Cached(accessToken, storage, AccessKey)
    }

    /** What `getRefreshToken()` would return now. */
    function RefreshToken(): (r: Option<string>)
      reads this
    {
      Cached(refreshToken, storage, RefreshKey)
    }

    /** `setTokens(access, refresh)`. */
    method SetTokens(access: string, refresh: string)
      modifies this
      ensures accessToken == Some(access) && refreshToken == Some(refresh)
      ensures storage == old(storage)[AccessKey := access][RefreshKey := refresh]
      ensures access != "" ==> AccessToken() == Some(access)
      ensures refresh != "" ==> RefreshToken() == Some(refresh)
    {
      accessToken := Some(access);
      refreshToken := Some(refresh);
      storage := storage[AccessKey := access];
      storage := storage[RefreshKey := refresh];
    }

    /** `getAccessToken()`: loads the stored token into the cache when the
        cache is empty. */
    method GetAccessToken() returns (token: Option<string>)
      modifies this`accessToken
      ensures token == old(AccessToken()) && accessToken == token
      ensures AccessToken() == token
    {
      if !Truthy(accessToken) {
        accessToken := Stored(storage, AccessKey);
      }
      token := accessToken;
    }

    /** `getRefreshToken()`. */
    method GetRefreshToken() returns (token: Option<string>)
      modifies this`refreshToken
      ensures token == old(RefreshToken()) && refreshToken == token
      ensures RefreshToken() == token
    {
      if !Truthy(refreshToken) {
        refreshToken := Stored(storage, RefreshKey);
      }
      token := refreshToken;
    }

    /** `clearTokens()`: drops both tokens, both stored tokens and the
        stored user. */
    method ClearTokens()
      modifies this
      ensures accessToken == None && refreshToken == None
      ensures storage == Cleared(old(storage))
      ensures AccessToken() == None && RefreshToken() == None && CurrentUser(storage) == None
    {
      accessToken := None;
      refreshToken := None;
      storage := Cleared(storage);
    }

    /** `setCurrentUser(user)`, given the user as `JSON.stringify` writes it. */
    method SetCurrentUser(user: string)
      modifies this`storage
      ensures storage == old(storage)[UserKey := user]
      ensures CurrentUser(storage) == if user == "" then None else Some(user)
    {
      storage := storage[UserKey := user];
    }

    /** The tail shared by `login` and `register`: a refused request
        throws the server's error or `fallback`; an accepted one stores the
        tokens and the user. */
    method Authenticate(reply: AuthReply, fallback: string) returns (r: Result<string, Fault>)
      modifies this
      ensures reply.AuthUnreachable? ==> r == Err(NetworkFault) && unchanged(this)
      ensures reply.AuthRefused? ==>
        && r == Err(Thrown(if Truthy(reply.error) then reply.error.value else fallback))
        && unchanged(this)
      ensures reply.AuthAccepted? ==>
        && r == Ok(reply.user)
        && accessToken == Some(reply.access) && refreshToken == Some(reply.refresh)
        && storage == old(storage)[AccessKey := reply.access][RefreshKey := reply.refresh][UserKey := reply.user]
    {
      match reply
      case AuthUnreachable =>
        r := Err(NetworkFault);
      case AuthRefused(error) =>
        r := Err(Thrown(if Truthy(error) then error.value else fallback));
      case AuthAccepted(user, access, refresh) =>
        SetTokens(access, refresh);
        SetCurrentUser(user);
        r := Ok(user);
    }

    /** `login(credentials)`. */
    method Login(reply: AuthReply) returns (r: Result<string, Fault>)
      modifies this
      ensures reply.AuthRefused? && !Truthy(reply.error) ==> r == Err(Thrown("Login failed"))
      ensures reply.AuthAccepted? ==>
        && r == Ok(reply.user)
        && accessToken == Some(reply.access) && refreshToken == Some(reply.refresh)
        && storage == old(storage)[AccessKey := reply.access][RefreshKey := reply.refresh][UserKey := reply.user]
      ensures !reply.AuthAccepted? ==> r.Err? && unchanged(this)
    {
      r := Authenticate(reply, "Login failed");
    }

    /** `register(credentials)`. */
    method Register(reply: AuthReply) returns (r: Result<string, Fault>)
      modifies this
      ensures reply.AuthRefused? && !Truthy(reply.error) ==> r == Err(Thrown("Registration failed"))
      ensures reply.AuthAccepted? ==>
        && r == Ok(reply.user)
        && accessToken == Some(reply.access) && refreshToken == Some(reply.refresh)
        && storage == old(storage)[AccessKey := reply.access][RefreshKey := reply.refresh][UserKey := reply.user]
      ensures !reply.AuthAccepted? ==> r.Err? && unchanged(this)
    {
      r := Authenticate(reply, "Registration failed");
    }

    /** `refreshAccessToken()`: without a refresh token it throws before any
        request; a refused refresh clears the session; an accepted one
        stores both new tokens and gives the new access token. */
    method RefreshAccessToken(reply: RefreshReply) returns (r: Result<string, Fault>, sent: seq<Call>)
      modifies this
      ensures var t := old(RefreshToken());
        && (!Truthy(t) ==> r == Err(Thrown("No refresh token")) && sent == []
                           && storage == old(storage) && accessToken == old(accessToken))
        && (Truthy(t) ==> sent == [RefreshCall(t.value)])
      ensures Truthy(old(RefreshToken())) && reply.RefreshUnreachable? ==>
        r == Err(NetworkFault) && storage == old(storage) && accessToken == old(accessToken)
      ensures Truthy(old(RefreshToken())) && reply.RefreshRefused? ==>
        && r == Err(Thrown("Token refresh failed"))
        && accessToken == None && refreshToken == None && storage == Cleared(old(storage))
      ensures Truthy(old(RefreshToken())) && reply.Refreshed? ==>
        && r == Ok(reply.access)
        && accessToken == Some(reply.access) && refreshToken == Some(reply.refresh)
        && storage == old(storage)[AccessKey := reply.access][RefreshKey := reply.refresh]
    {
      var refresh := GetRefreshToken();
      if !Truthy(refresh) {
        return Err(Thrown("No refresh token")), [];
      }
      sent := [RefreshCall(refresh.value)];
      match reply
      case RefreshUnreachable =>
        r := Err(NetworkFault);
      case RefreshRefused =>
        ClearTokens();
        r := Err(Thrown("Token refresh failed"));
      case Refreshed(access, next) =>
        accessToken := Some(access);
        refreshToken := Some(next);
        storage := storage[AccessKey := access];
        storage := storage[RefreshKey := next];
        r := Ok(access);
    }

    /** `logout()`: tells the server when there is an access token, ignores
        any failure of that request, and always clears the session. */
    method Logout() returns (sent: seq<Call>)
      modifies this
      ensures var t := old(AccessToken());
        sent == if Truthy(t) then [LogoutCall(Bearer(t.value))] else []
      ensures accessToken == None && refreshToken == None && storage == Cleared(old(storage))
    {
      var token := GetAccessToken();
      sent := if Truthy(token) then [LogoutCall(Bearer(token.value))] else [];
      ClearTokens();
    }

    /** `authenticatedFetch(url)`: the first reply, the refresh reply and the
        retry's reply are parameters, and only those the code reaches are
        used. `redirected` is the move to "/login". */
    method AuthenticatedFetch(url: string, first: Reply, refresh: RefreshReply, retry: Reply)
      returns (r: Result<int, Fault>, sent: seq<Call>, redirected: bool)
      modifies this
      ensures var t := old(AccessToken());
        && (!Truthy(t) ==> r == Err(Thrown("Not authenticated")) && sent == [] && !redirected)
        && (Truthy(t) ==> |sent| >= 1 && sent[0] == FetchCall(url, Bearer(t.value)))
      ensures |sent| <= 3
      ensures forall i :: 1 <= i < |sent| && sent[i].FetchCall? ==> i == |sent| - 1
      ensures Truthy(old(AccessToken())) && first.Unreachable? ==>
        r == Err(NetworkFault) && |sent| == 1 && !redirected && storage == old(storage)
      ensures Truthy(old(AccessToken())) && first.Answered? && first.status != 401 ==>
        r == Ok(first.status) && |sent| == 1 && !redirected && storage == old(storage)
      ensures redirected ==> r.Err? && accessToken == None && refreshToken == None
                               && storage == Cleared(old(storage))
      ensures r.Err? && Truthy(old(AccessToken())) && first == Answered(401) ==> redirected
      ensures r.Ok? && first == Answered(401) ==>
        && refresh.Refreshed? && retry.Answered? && r == Ok(retry.status)
        && |sent| == 3 && sent[2] == FetchCall(url, Bearer(refresh.access))
        && accessToken == Some(refresh.access) && refreshToken == Some(refresh.refresh)
        && storage == old(storage)[AccessKey := refresh.access][RefreshKey := refresh.refresh]
        && Truthy(old(RefreshToken())) && sent[1] == RefreshCall(old(RefreshToken()).value)
    {
      redirected := false;
      var token := GetAccessToken();
      if !Truthy(token) {
        return Err(Thrown("Not authenticated")), [], false;
      }
      sent := [FetchCall(url, Bearer(token.value))];
      if first.Unreachable? {
        return Err(NetworkFault), sent, false;
      }
      if first.status != 401 {
        return Ok(first.status), sent, false;
      }
      var renewed, refreshSent := RefreshAccessToken(refresh);
      sent := sent + refreshSent;
      if renewed.Err? {
        ClearTokens();
        return Err(renewed.error), sent, true;
      }
      sent := sent + [FetchCall(url, Bearer(renewed.value))];
      if retry.Unreachable? {
        ClearTokens();
        return Err(NetworkFault), sent, true;
      }
      r := Ok(retry.status);
    }
  }

  /** The header the client sends is the one the server middleware takes
      the token out of. */
  lemma ClientHeaderAccepted(token: string, verify: string -> Option<Middleware.TokenPayload>)
    requires verify(token).Some?
    ensures Middleware.Authorize(Some(Bearer(token)), verify) == Middleware.Proceed(verify(token).value.userId)
  {
  }
}
