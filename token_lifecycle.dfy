/**
 * The token rules ShopeeAuth and LazadaAuth share (shopeeclient/auth.py and
 * lazadaclient/auth.py differ only in the platform name, the default lifetimes and the
 * name of the lifetime field in the refresh response): the initial expiry, the one-time
 * adoption of stored tokens, and the outcome of a refresh response.
 */
module TokenLifecycle {
  import opened Wrappers
  import Text
  import opened Json
  import opened TokenManager

  /** The three token fields of an auth object; the expiry is in epoch seconds. */
  datatype Tokens = Tokens(accessToken: Option<string>, refreshToken: Option<string>, tokenExpiry: int)

  /** What a successful refresh hands to `save_tokens_to_state`. */
  datatype Saved = Saved(accessToken: string, refreshToken: Option<string>, tokenExpiry: int)

  /** `ok` is the refresh's return value; `tokens` the fields afterwards; `saved` what was persisted. */
  datatype RefreshOutcome = RefreshOutcome(ok: bool, tokens: Tokens, saved: Option<Saved>)

  /** Python truthiness of an optional string: `None` and `""` are false. */
  predicate HasText(s: Option<string>) {
    s.Some? && s.value != ""
  }

  /**
   * The expiry set by the constructor: `now + token_expiry_seconds` when that is given
   * and non-zero, otherwise `now + defaultLifetime`.
   */
  function InitialExpiry(now: int, tokenExpirySeconds: Option<int>, defaultLifetime: int): (e: int)
    ensures tokenExpirySeconds.Some? && tokenExpirySeconds.value != 0 ==> e - now == tokenExpirySeconds.value
    ensures tokenExpirySeconds.None? || tokenExpirySeconds == Some(0) ==> e - now == defaultLifetime
  {
    match tokenExpirySeconds
    case Some(s) => if s != 0 then now + s else now + defaultLifetime
    case None => now + defaultLifetime
  }

  /**
   * The body of `_check_state_for_tokens` after the stored record was loaded: a record
   * whose expiry parses and is not (about to be) expired replaces all three fields;
   * otherwise a stored non-empty refresh token replaces the refresh token alone;
   * otherwise nothing changes.
   */
  function Adopt(t: Tokens, stored: Option<TokenData>, now: int): (r: Tokens)
    ensures stored.None? ==> r == t
    ensures r == t || (stored.Some? && r.refreshToken == stored.value.refreshToken)
    ensures r.accessToken != t.accessToken || r.tokenExpiry != t.tokenExpiry ==>
              stored.Some? && r.accessToken == Some(stored.value.accessToken)
              && !IsTokenExpired(now, r.tokenExpiry, DefaultBufferMinutes)
    ensures t.accessToken.Some? ==> r.accessToken.Some?
    ensures stored.Some? && ParseTokenExpiry(Some(stored.value.tokenExpiry)).Some?
            && !IsTokenExpired(now, ParseTokenExpiry(Some(stored.value.tokenExpiry)).value, DefaultBufferMinutes) ==>
              r == Tokens(Some(stored.value.accessToken), stored.value.refreshToken,
                          ParseTokenExpiry(Some(stored.value.tokenExpiry)).value)
    ensures stored.Some? && (ParseTokenExpiry(Some(stored.value.tokenExpiry)).None?
                             || IsTokenExpired(now, ParseTokenExpiry(Some(stored.value.tokenExpiry)).value, DefaultBufferMinutes)) ==>
              r == (if HasText(stored.value.refreshToken) then t.(refreshToken := stored.value.refreshToken) else t)
  {
    match stored
    case None => t
    case Some(data) =>
      var expiry := ParseTokenExpiry(Some(data.tokenExpiry));
      if expiry.Some? && !IsTokenExpired(now, expiry.value, DefaultBufferMinutes) then
        Tokens(Some(data.accessToken), data.refreshToken, expiry.value)
      else if HasText(data.refreshToken) then
        t.(refreshToken := data.refreshToken)
      else
        t
  }

  /** A token value as read from the response: JSON `null` is `None`, any other value its `str()`. */
  function TokenText(j: Json): (r: Option<string>)
    ensures j.JStr? ==> r == Some(j.s)
    ensures r.None? <==> j.JNull?
  {
    match j
    case JNull => None
    case JStr(s) => Some(s)
    case _ => Some(Str(j))
  }

  /**
   * What a refresh response does, once a refresh token was present and the POST returned
   * `data`. A truthy `access_token` sets the access token, then the refresh token (the
   * response's, else the current one), then the expiry (`lifetimeKey` seconds from now,
   * `defaultLifetime` when absent), and the three are saved. A lifetime that cannot be
   * added raises after the first two assignments: the exception is caught, the expiry
   * keeps its old value and nothing is saved. Any other response changes nothing.
   */
  function ApplyResponse(t: Tokens, data: Json, now: int, lifetimeKey: string, defaultLifetime: int): RefreshOutcome {
    var access := Get(data, "access_token");
    if !Truthy(access) then RefreshOutcome(false, t, None)
    else
      var a := Str(access);
      var r := match Field(data, "refresh_token") case Some(j) => TokenText(j) case None => t.refreshToken;
      var lifetime := match Field(data, lifetimeKey) case Some(j) => IntValue(j) case None => Some(defaultLifetime);
      (match lifetime
       case Some(sec) => RefreshOutcome(true, Tokens(Some(a), r, now + sec), Some(Saved(a, r, now + sec)))
       case None => RefreshOutcome(false, Tokens(Some(a), r, t.tokenExpiry), None))
  }

  /**
   * `_refresh_access_token` on the token fields. `response` is the parsed body of the
   * refresh POST, `None` when the request or the JSON decoding raised.
   */
  function Refresh(t: Tokens, response: Option<Json>, now: int, lifetimeKey: string, defaultLifetime: int): (o: RefreshOutcome)
    ensures !HasText(t.refreshToken) ==> o == RefreshOutcome(false, t, None)
    ensures response.None? ==> o == RefreshOutcome(false, t, None)
    ensures o.ok <==> o.saved.Some?
    ensures o.ok ==> o.tokens == Tokens(Some(o.saved.value.accessToken), o.saved.value.refreshToken, o.saved.value.tokenExpiry)
    ensures o.ok ==> response.Some? && Has(response.value, "access_token") && Truthy(Get(response.value, "access_token"))
    ensures o.ok ==> o.tokens.accessToken == Some(Str(Get(response.value, "access_token")))
    ensures o.ok ==> o.tokens.refreshToken == match Field(response.value, "refresh_token")
                                              case Some(j) => TokenText(j)
                                              case None => t.refreshToken
    ensures o.ok ==> (Has(response.value, lifetimeKey) ==> IntValue(Get(response.value, lifetimeKey)) == Some(o.tokens.tokenExpiry - now))
                     && (!Has(response.value, lifetimeKey) ==> o.tokens.tokenExpiry == now + defaultLifetime)
    ensures (HasText(t.refreshToken) && response.Some? && Truthy(Get(response.value, "access_token"))
             && (!Has(response.value, lifetimeKey) || IntValue(Get(response.value, lifetimeKey)).Some?)) ==> o.ok
    ensures HasText(t.refreshToken) && response.Some? && Truthy(Get(response.value, "access_token")) ==>
              o.tokens.accessToken == Some(Str(Get(response.value, "access_token")))
              && o.tokens.refreshToken == match Field(response.value, "refresh_token")
                                          case Some(j) => TokenText(j)
                                          case None => t.refreshToken
    ensures !o.ok ==> o.tokens.tokenExpiry == t.tokenExpiry
    ensures t.accessToken.Some? ==> o.tokens.accessToken.Some?
  {
    if !HasText(t.refreshToken) then RefreshOutcome(false, t, None)
    else match response
      case None => RefreshOutcome(false, t, None)
      case Some(data) => ApplyResponse(t, data, now, lifetimeKey, defaultLifetime)
  }

  /** A response without a truthy `access_token` changes no field and saves nothing. */
  lemma RejectedResponseChangesNothing(t: Tokens, data: Json, now: int, lifetimeKey: string, defaultLifetime: int)
    requires !Truthy(Get(data, "access_token"))
    ensures Refresh(t, Some(data), now, lifetimeKey, defaultLifetime) == RefreshOutcome(false, t, None)
  {
  }

  /**
   * A successful refresh expires `lifetimeKey` seconds after `now` (`defaultLifetime`
   * when the field is absent), and takes the response's refresh token when it carries
   * one and keeps the current one otherwise.
   */
  lemma AcceptedResponse(t: Tokens, data: Json, now: int, lifetimeKey: string, defaultLifetime: int)
    requires HasText(t.refreshToken)
    requires Truthy(Get(data, "access_token"))
    requires !Has(data, lifetimeKey) || Get(data, lifetimeKey).JInt?
    ensures var o := Refresh(t, Some(data), now, lifetimeKey, defaultLifetime);
      o.ok
      && o.tokens.accessToken == Some(Str(Get(data, "access_token")))
      && o.tokens.tokenExpiry == now + (if Has(data, lifetimeKey) then Get(data, lifetimeKey).i else defaultLifetime)
      && (!Has(data, "refresh_token") ==> o.tokens.refreshToken == t.refreshToken)
      && (Has(data, "refresh_token") ==> o.tokens.refreshToken == TokenText(Get(data, "refresh_token")))
  {
  }

  /**
   * What a successful refresh saved is what a later `_check_state_for_tokens` adopts, as
   * long as it is checked before the new token is about to expire: the refreshed tokens
   * survive into the next run.
   */
  lemma AdoptAfterRefresh(t: Tokens, t': Tokens, response: Option<Json>, now: int, lifetimeKey: string,
                          defaultLifetime: int, state: map<string, TokenData>, platform: string, later: int)
    requires Refresh(t, response, now, lifetimeKey, defaultLifetime).ok
    requires !IsTokenExpired(later, Refresh(t, response, now, lifetimeKey, defaultLifetime).tokens.tokenExpiry, DefaultBufferMinutes)
    ensures var o := Refresh(t, response, now, lifetimeKey, defaultLifetime);
      var s := o.saved.value;
      Adopt(t', LoadTokens(SaveTokens(Some(state), platform, s.accessToken, s.refreshToken, s.tokenExpiry), platform), later)
        == o.tokens
  {
    var o := Refresh(t, response, now, lifetimeKey, defaultLifetime);
    var s := o.saved.value;
    LoadAfterSave(state, platform, s.accessToken, s.refreshToken, s.tokenExpiry);
  }
}
