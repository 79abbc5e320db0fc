/**
 * Browser token storage (src/services/tokenService.ts, and the identical helpers at
 * src/api.tsx:12-36): the access token lives in session storage and the refresh token in local
 * storage, each under its own key.
 */
module TokenService {
  import opened Wrappers

  const AccessTokenKey: string := "accessToken"
  const RefreshTokenKey: string := "refreshToken"

  /** The two browser key-value stores. */
  datatype Stores = Stores(session: map<string, string>, local: map<string, string>)

  /** `getItem`: the stored string, or null. */
  function GetItem(store: map<string, string>, key: string): Option<string> {
    if key in store then Some(store[key]) else None
  }

  function AccessToken(s: Stores): Option<string> {
    GetItem(s.session, AccessTokenKey)
  }

  function RefreshToken(s: Stores): Option<string> {
    GetItem(s.local, RefreshTokenKey)
  }

  /** `!!token`: stored and not the empty string. */
  predicate Truthy(t: Option<string>) {
    t.Some? && t.value != ""
  }

  /** True iff at least one of the two tokens is stored as a non-empty string. */
  predicate TokensPresent(s: Stores) {
    Truthy(AccessToken(s)) || Truthy(RefreshToken(s))
  }

  function WithTokens(s: Stores, access: string, refresh: string): Stores {
    Stores(s.session[AccessTokenKey := access], s.local[RefreshTokenKey := refresh])
  }

  function WithAccessToken(s: Stores, token: string): Stores {
    s.(session := s.session[AccessTokenKey := token])
  }

  function Cleared(s: Stores): Stores {
    Stores(s.session - {AccessTokenKey}, s.local - {RefreshTokenKey})
  }

  /** After `setTokens(a, r)` the getters return `a` and `r`; other keys are untouched. */
  lemma SetTokensThenGet(s: Stores, access: string, refresh: string)
    ensures AccessToken(WithTokens(s, access, refresh)) == Some(access)
    ensures RefreshToken(WithTokens(s, access, refresh)) == Some(refresh)
    ensures TokensPresent(WithTokens(s, access, refresh)) <==> access != "" || refresh != ""
    ensures forall k :: k != AccessTokenKey ==> GetItem(WithTokens(s, access, refresh).session, k) == GetItem(s.session, k)
    ensures forall k :: k != RefreshTokenKey ==> GetItem(WithTokens(s, access, refresh).local, k) == GetItem(s.local, k)
  {
  }

  /** `setAccessToken` changes the access token only: local storage, hence the refresh token, is untouched. */
  lemma SetAccessTokenKeepsRefresh(s: Stores, token: string)
    ensures AccessToken(WithAccessToken(s, token)) == Some(token)
    ensures WithAccessToken(s, token).local == s.local
    ensures RefreshToken(WithAccessToken(s, token)) == RefreshToken(s)
  {
  }

  /** After `clearTokens` both getters return null and `hasTokens` is false; other keys are untouched. */
  lemma ClearTokensEmpties(s: Stores)
    ensures AccessToken(Cleared(s)).None? && RefreshToken(Cleared(s)).None?
    ensures !TokensPresent(Cleared(s))
    ensures forall k :: k != AccessTokenKey ==> GetItem(Cleared(s).session, k) == GetItem(s.session, k)
    ensures forall k :: k != RefreshTokenKey ==> GetItem(Cleared(s).local, k) == GetItem(s.local, k)
  {
  }

  /** An empty string counts as absent: stored empty tokens give `hasTokens` false. */
  lemma EmptyTokensAreAbsent(s: Stores)
    ensures !TokensPresent(WithTokens(s, "", ""))
    ensures AccessToken(WithTokens(s, "", "")).Some?
  {
  }

  /** The static `TokenService` over the browser's two stores. */
  class Storage {
    var session: map<string, string>
    var local: map<string, string>

    function State(): Stores
      reads this
    {
      Stores(session, local)
    }

    constructor (initial: Stores)
      ensures State() == initial
    {
      session, local := initial.session, initial.local;
    }

    method SetTokens(access: string, refresh: string)
      modifies this
      ensures State() == WithTokens(old(State()), access, refresh)
      ensures AccessToken(State()) == Some(access) && RefreshToken(State()) == Some(refresh)
    {
      session := session[AccessTokenKey := access];
      local := local[RefreshTokenKey := refresh];
    }

    method GetAccessToken() returns (t: Option<string>)
      ensures t == AccessToken(State())
      ensures t.Some? <==> AccessTokenKey in session
    {
      t := GetItem(session, AccessTokenKey);
    }

    method GetRefreshToken() returns (t: Option<string>)
      ensures t == RefreshToken(State())
      ensures t.Some? <==> RefreshTokenKey in local
    {
      t := GetItem(local, RefreshTokenKey);
    }

    method SetAccessToken(token: string)
      modifies this`session
      ensures State() == WithAccessToken(old(State()), token)
      ensures AccessToken(State()) == Some(token)
    {
      session := session[AccessTokenKey := token];
    }

    method ClearTokens()
      modifies this
      ensures State() == Cleared(old(State()))
      ensures !TokensPresent(State())
    {
      session := session - {AccessTokenKey};
      local := local - {RefreshTokenKey};
    }

    method HasTokens() returns (b: bool)
      ensures b <==> Truthy(AccessToken(State())) || Truthy(RefreshToken(State()))
    {
      var a := GetItem(session, AccessTokenKey);
      var r := GetItem(local, RefreshTokenKey);
      b := Truthy(a) || Truthy(r);
    }
  }
}
