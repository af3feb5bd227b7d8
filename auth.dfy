/**
 * The token helpers of lib/auth.ts: the access and refresh tokens are kept
 * both in `localStorage` and in cookies, read back with `localStorage`
 * first, and the access token's `exp` claim decides whether it has expired.
 *
 * The two stores are maps from key to value; cookie lifetimes are not
 * modelled. `Date.now()` is a parameter, and so is the `atob` / `JSON.parse`
 * decoding of the payload.
 */
module Auth {
  import opened Wrappers
  import opened Text

  const TokenKey := "access_token"
  const RefreshTokenKey := "refresh_token"

  /** `store.get(key)`, `null` or `undefined` being `None`. */
  function Lookup(store: map<string, string>, key: string): Option<string>
  {
    if key in store then Some(store[key]) else None
  }

  /** `localStorage.getItem(key) || Cookies.get(key) || null`. */
  function FirstSet(local: map<string, string>, cookies: map<string, string>, key: string): (r: Option<string>)
    ensures r.Some? ==> r.value != ""
    ensures Truthy(Lookup(local, key)) ==> r == Lookup(local, key)
    ensures !Truthy(Lookup(local, key)) ==> r == if Truthy(Lookup(cookies, key)) then Lookup(cookies, key) else None
  {
    if Truthy(Lookup(local, key)) then Lookup(local, key)
    else if Truthy(Lookup(cookies, key)) then Lookup(cookies, key)
    else None
  }

  /** A cookie is consulted only when `localStorage` has nothing usable, and an empty value anywhere counts as none. */
  lemma CookieIsTheBackup(local: map<string, string>, cookies: map<string, string>, key: string)
    ensures FirstSet(local, cookies, key).Some? <==> Truthy(Lookup(local, key)) || Truthy(Lookup(cookies, key))
    ensures FirstSet(local[key := ""], cookies, key) == FirstSet(local - {key}, cookies, key)
  {
  }

  class TokenStorage {
    /** `typeof window !== "undefined"`. */
    const hasWindow: bool
    var local: map<string, string>
    var cookies: map<string, string>

    constructor (hasWindow: bool, local: map<string, string>, cookies: map<string, string>)
      ensures this.hasWindow == hasWindow && this.local == local && this.cookies == cookies
    {
      this.hasWindow := hasWindow;
      this.local := local;
      this.cookies := cookies;
    }

    /** `getToken`. */
    function GetToken(): (r: Option<string>)
      reads this
      ensures !hasWindow ==> r == None
      ensures hasWindow ==> r == FirstSet(local, cookies, TokenKey)
    {
      if !hasWindow then None else FirstSet(local, cookies, TokenKey)
    }

    /** `getRefreshToken`. */
    function GetRefreshToken(): (r: Option<string>)
      reads this
      ensures !hasWindow ==> r == None
      ensures hasWindow ==> r == FirstSet(local, cookies, RefreshTokenKey)
    {
      if !hasWindow then None else FirstSet(local, cookies, RefreshTokenKey)
    }

    /** `setTokens`: both stores get both tokens; on the server nothing happens. */
    method SetTokens(accessToken: string, refreshToken: string)
      modifies this
      ensures !hasWindow ==> local == old(local) && cookies == old(cookies)
      ensures hasWindow ==>
        local == old(local)[TokenKey := accessToken][RefreshTokenKey := refreshToken]
        && cookies == old(cookies)[TokenKey := accessToken][RefreshTokenKey := refreshToken]
      ensures hasWindow ==> GetToken() == (if accessToken != "" then Some(accessToken) else None)
      ensures hasWindow ==> GetRefreshToken() == (if refreshToken != "" then Some(refreshToken) else None)
    {
      if !hasWindow {
        return;
      }
      local := local[TokenKey := accessToken];
      local := local[RefreshTokenKey := refreshToken];
      cookies := cookies[TokenKey := accessToken];
      cookies := cookies[RefreshTokenKey := refreshToken];
    }

    /** `clearTokens`: both keys leave both stores, so neither getter finds anything. */
    method ClearTokens()
      modifies this
      ensures !hasWindow ==> local == old(local) && cookies == old(cookies)
      ensures hasWindow ==>
        local == old(local) - {TokenKey, RefreshTokenKey} && cookies == old(cookies) - {TokenKey, RefreshTokenKey}
      ensures GetToken() == None && GetRefreshToken() == None
    {
      if !hasWindow {
        return;
      }
      local := local - {TokenKey};
      local := local - {RefreshTokenKey};
      cookies := cookies - {TokenKey};
      cookies := cookies - {RefreshTokenKey};
    }
  }

  /**
   * `token.split(".")[1]`: the text between the first and the second dot
   * (or the end), or `None` when the token has no dot.
   */
  function PayloadSegment(token: string): (seg: Option<string>)
    ensures seg.None? <==> '.' !in token
    ensures seg.Some? ==> '.' !in seg.value
  {
    var i := IndexOfChar(token, '.');
    if i == |token| then None
    else
      var rest := token[i + 1..];
      Some(rest[..IndexOfChar(rest, '.')])
  }

  /** The segment is the second piece: the token is a dot-free head, a dot, the segment, then nothing or another dot. */
  lemma PayloadSegmentIsSecondPiece(token: string) returns (head: string, tail: string)
    requires '.' in token
    ensures '.' !in head && (tail == "" || tail[0] == '.')
    ensures token == head + "." + PayloadSegment(token).value + tail
  {
    var i := IndexOfChar(token, '.');
    var rest := token[i + 1..];
    var j := IndexOfChar(rest, '.');
    head, tail := token[..i], rest[j..];
    assert token == head + "." + rest[..j] + tail;
  }

  /** What `JSON.parse(atob(segment))` gives: a failure, or the `exp` claim when it is a number. */
  datatype Payload = Undecodable | Decoded(exp: Option<int>)

  /**
   * `isTokenExpired`: no token or an unreadable payload is expired;
   * otherwise the token expires at `exp` seconds, inclusive. A payload
   * without a numeric `exp` makes the comparison with `NaN` false.
   * `atob` of the missing segment (`"undefined"`) fails.
   */
  function IsTokenExpired(token: Option<string>, nowMs: int, decode: string -> Payload): (expired: bool)
    ensures !Truthy(token) ==> expired
    ensures Truthy(token) && PayloadSegment(token.value).None? ==> expired
    ensures Truthy(token) && PayloadSegment(token.value).Some? ==>
      var p := decode(PayloadSegment(token.value).value);
      (p.Undecodable? ==> expired) && (p.Decoded? && p.exp.Some? ==> (expired <==> nowMs >= p.exp.value * 1000))
      && (p.Decoded? && p.exp.None? ==> !expired)
  {
    if !Truthy(token) then true
    else
      match PayloadSegment(token.value)
      case None => true
      case Some(seg) =>
        match decode(seg)
        case Undecodable => true
        case Decoded(exp) => exp.Some? && nowMs >= exp.value * 1000
  }

  /** The instant `exp` itself already counts as expired; one millisecond earlier does not. */
  lemma ExpiryBoundaryInclusive(token: string, exp: int, decode: string -> Payload)
    requires '.' in token
    requires decode(PayloadSegment(token).value) == Decoded(Some(exp))
    ensures IsTokenExpired(Some(token), exp * 1000, decode)
    ensures !IsTokenExpired(Some(token), exp * 1000 - 1, decode)
  {
  }

  /** A token whose payload carries no numeric `exp` never expires, however late it is. */
  lemma MissingExpNeverExpires(token: string, nowMs: int, decode: string -> Payload)
    requires '.' in token
    requires decode(PayloadSegment(token).value) == Decoded(None)
    ensures !IsTokenExpired(Some(token), nowMs, decode)
  {
  }

  /** Once expired, a token stays expired. */
  lemma ExpiryIsMonotone(token: Option<string>, earlier: int, later: int, decode: string -> Payload)
    requires earlier <= later
    requires IsTokenExpired(token, earlier, decode)
    ensures IsTokenExpired(token, later, decode)
  {
  }

  /** Storing tokens and then clearing them leaves a store with neither, whatever was there before. */
  method SignInThenOut(local: map<string, string>, cookies: map<string, string>, access: string, refresh: string)
    returns (whileIn: Option<string>, afterOut: Option<string>, refreshAfterOut: Option<string>)
    requires access != ""
    ensures whileIn == Some(access)
    ensures afterOut == None && refreshAfterOut == None
  {
    var s := new TokenStorage(true, local, cookies);
    s.SetTokens(access, refresh);
    whileIn := s.GetToken();
    s.ClearTokens();
    afterOut, refreshAfterOut := s.GetToken(), s.GetRefreshToken();
  }
}
