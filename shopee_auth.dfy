/**
 * `ShopeeAuth` (shopeeclient/auth.py): signs every Shopee Open Platform request with
 * partner id, shop id, access token, timestamp and an HMAC-SHA256 signature in lower-case
 * hex, adopting stored tokens once and refreshing an expired access token first.
 *
 * The clock is the parameter `now` (epoch seconds, the same value for the timestamp and
 * the expiry arithmetic of one call); the refresh POST is replaced by its parsed response.
 */
module ShopeeClient {
  import opened Wrappers
  import Text
  import opened PyDict
  import Json
  import opened Signature
  import opened TokenManager
  import opened TokenLifecycle
  import opened Http

  const PlatformName: string := "shopee"
  const Host: string := "partner.shopeemobile.com"
  const RefreshPath: string := "/api/v2/auth/access_token/get"
  /** Assumed lifetime of the constructor's token when none is given: one hour. */
  const DefaultLifetime: int := 3600
  /** Lifetime of a refreshed token when the response does not say: four hours. */
  const RefreshDefaultLifetime: int := 14400
  const RefreshLifetimeKey: string := "expire_in"

  /** `{partner_id}{path}{timestamp}{access_token}{shop_id}`, in that fixed order. */
  function RequestBaseString(partnerId: int, path: string, timestamp: int, accessToken: string, shopId: int): string {
    Text.IntToString(partnerId) + path + Text.IntToString(timestamp) + accessToken + Text.IntToString(shopId)
  }

  /** `{partner_id}{path}{timestamp}` for the token refresh: no token, no shop. */
  function RefreshBaseString(partnerId: int, timestamp: int): string {
    Text.IntToString(partnerId) + RefreshPath + Text.IntToString(timestamp)
  }

  /**
   * The refresh base string is the request base string for the refresh path with the
   * token and shop id cut off the end.
   */
  lemma RefreshBaseIsRequestBasePrefix(partnerId: int, timestamp: int, accessToken: string, shopId: int)
    ensures var full := RequestBaseString(partnerId, RefreshPath, timestamp, accessToken, shopId);
      var short := RefreshBaseString(partnerId, timestamp);
      |short| <= |full| && full[..|short|] == short
      && full[|short|..] == accessToken + Text.IntToString(shopId)
  {
    var short := RefreshBaseString(partnerId, timestamp);
    var full := RequestBaseString(partnerId, RefreshPath, timestamp, accessToken, shopId);
    assert full == short + (accessToken + Text.IntToString(shopId));
  }

  /** `hmac.new(key.encode("utf-8"), base.encode("utf-8"), sha256).hexdigest()`. */
  function LowerHexSignature(mac: Mac, partnerKey: string, base: string): (sig: string)
    ensures |sig| == 64
    ensures forall i :: 0 <= i < |sig| ==> IsHexDigit(sig[i], false) && !('A' <= sig[i] <= 'Z')
    ensures HexDecode(sig) == Some(mac(Utf8(partnerKey), Utf8(base)))
  {
    var digest := mac(Utf8(partnerKey), Utf8(base));
    HexRoundTrip(digest, false);
    Hex(digest, false)
  }

  const AuthParamKeys: seq<string> := ["partner_id", "shop_id", "access_token", "timestamp", "sign"]

  /** The five parameters `__call__` adds, in its order. */
  function AuthParams(partnerId: int, shopId: int, accessToken: string, timestamp: int, sign: string): (p: Dict<QValue>)
    ensures Keys(p) == AuthParamKeys && DistinctKeys(p)
    ensures Get(p, "partner_id") == Some(One(Text.IntToString(partnerId)))
    ensures Get(p, "shop_id") == Some(One(Text.IntToString(shopId)))
    ensures Get(p, "access_token") == Some(One(accessToken))
    ensures Get(p, "timestamp") == Some(One(Text.IntToString(timestamp)))
    ensures Get(p, "sign") == Some(One(sign))
  {
    var p := [("partner_id", One(Text.IntToString(partnerId))), ("shop_id", One(Text.IntToString(shopId))),
              ("access_token", One(accessToken)), ("timestamp", One(Text.IntToString(timestamp))), ("sign", One(sign))];
    assert Keys(p) == AuthParamKeys;
    GetAt(p, 0);
    GetAt(p, 1);
    GetAt(p, 2);
    GetAt(p, 3);
    GetAt(p, 4);
    p
  }

  /** The path the request is signed over: the URL's path, or `/` for an empty URL. */
  function RequestPath(u: Url): string {
    if UrlText(u) != "" then u.path else "/"
  }

  /**
   * `{**flattened_params, **auth_params}`: in the rewritten query every auth parameter
   * carries its auth value, and every other parameter keeps exactly the values the URL had.
   */
  lemma AuthParamsOverride(existing: Query, auth: Dict<QValue>, k: string)
    requires Keys(auth) == AuthParamKeys && DistinctKeys(auth)
    ensures k in AuthParamKeys ==> Get(EncodeSeq(Merge(Flatten(existing), auth)), k) == Some(Values(Get(auth, k).value))
    ensures k !in AuthParamKeys ==> Get(EncodeSeq(Merge(Flatten(existing), auth)), k) == Get(existing, k)
  {
    var merged := Merge(Flatten(existing), auth);
    MergeGet(Flatten(existing), auth, k);
    FlattenThenEncodeSeq(existing);
    assert Get(EncodeSeq(Flatten(existing)), k) == Get(existing, k);
  }

  /** What `_refresh_access_token` posts: the signed URL and the JSON body. */
  datatype RefreshCall = RefreshCall(url: Url, body: Dict<Json.Json>)

  class ShopeeAuth {
    const partnerId: int
    const partnerKey: string
    const shopId: int
    const autoRefresh: bool
    /** HMAC-SHA256. */
    const mac: Mac
    var accessToken: string
    var refreshToken: Option<string>
    var tokenExpiry: int
    var stateChecked: bool

    /** `ShopeeAuth(...)` at time `now`. */
    constructor(partnerId: int, partnerKey: string, shopId: int, accessToken: string, refreshToken: Option<string>,
                tokenExpirySeconds: Option<int>, autoRefresh: bool, mac: Mac, now: int)
      ensures this.partnerId == partnerId && this.partnerKey == partnerKey && this.shopId == shopId
      ensures this.autoRefresh == autoRefresh && this.mac == mac
      ensures Current() == Tokens(Some(accessToken), refreshToken, InitialExpiry(now, tokenExpirySeconds, DefaultLifetime))
      ensures !stateChecked
    {
      this.partnerId := partnerId;
      this.partnerKey := partnerKey;
      this.shopId := shopId;
      this.accessToken := accessToken;
      this.refreshToken := refreshToken;
      this.autoRefresh := autoRefresh;
      this.mac := mac;
      stateChecked := false;
      if tokenExpirySeconds.Some? && tokenExpirySeconds.value != 0 {
        tokenExpiry := now + tokenExpirySeconds.value;
      } else {
        tokenExpiry := now + DefaultLifetime;
      }
    }

    function Current(): Tokens
      reads this
    {
      Tokens(Some(accessToken), refreshToken, tokenExpiry)
    }

    /** `_check_state_for_tokens`: adopts the stored Shopee tokens on the first call only. */
    method CheckStateForTokens(store: TokenStore, now: int)
      modifies this
      ensures stateChecked
      ensures old(stateChecked) ==> Current() == old(Current())
      ensures !old(stateChecked) ==> Current() == Adopt(old(Current()), store.Load(PlatformName), now)
    {
      if stateChecked {
        return;
      }
      stateChecked := true;
      var stored := store.Load(PlatformName);
      if stored.Some? {
        var expiry := ParseTokenExpiry(Some(stored.value.tokenExpiry));
        if expiry.Some? && !IsTokenExpired(now, expiry.value, DefaultBufferMinutes) {
          accessToken := stored.value.accessToken;
          refreshToken := stored.value.refreshToken;
          tokenExpiry := expiry.value;
        } else if HasText(stored.value.refreshToken) {
          refreshToken := stored.value.refreshToken;
        }
      }
    }

    /** `_generate_signature(path, timestamp)`. */
    function GenerateSignature(path: string, timestamp: int): (sig: string)
      reads this
      ensures |sig| == 64
      ensures forall i :: 0 <= i < |sig| ==> IsHexDigit(sig[i], false)
      ensures HexDecode(sig) == Some(mac(Utf8(partnerKey), Utf8(RequestBaseString(partnerId, path, timestamp, accessToken, shopId))))
    {
      LowerHexSignature(mac, partnerKey, RequestBaseString(partnerId, path, timestamp, accessToken, shopId))
    }

    /** The POST `_refresh_access_token` sends with `refresh` as the refresh token. */
    function RefreshRequest(refresh: string, timestamp: int): (call: RefreshCall)
      reads this
      ensures Keys(call.url.query) == ["partner_id", "timestamp", "sign"]
      ensures Get(call.url.query, "sign") == Some([LowerHexSignature(mac, partnerKey, RefreshBaseString(partnerId, timestamp))])
      ensures Get(call.url.query, "partner_id") == Some([Text.IntToString(partnerId)])
      ensures Get(call.url.query, "timestamp") == Some([Text.IntToString(timestamp)])
      ensures call.url == Url("https", Host, RefreshPath, call.url.query, "")
      ensures call.body == [("shop_id", Json.JInt(shopId)), ("partner_id", Json.JInt(partnerId)), ("refresh_token", Json.JStr(refresh))]
      ensures Get(call.body, "refresh_token") == Some(Json.JStr(refresh))
    {
      var sign := LowerHexSignature(mac, partnerKey, RefreshBaseString(partnerId, timestamp));
      var query := [("partner_id", [Text.IntToString(partnerId)]), ("timestamp", [Text.IntToString(timestamp)]), ("sign", [sign])];
      var body := [("shop_id", Json.JInt(shopId)), ("partner_id", Json.JInt(partnerId)), ("refresh_token", Json.JStr(refresh))];
      assert Keys(query) == ["partner_id", "timestamp", "sign"];
      assert Keys(body) == ["shop_id", "partner_id", "refresh_token"];
      GetAt(query, 0);
      GetAt(query, 1);
      GetAt(query, 2);
      GetAt(body, 2);
      RefreshCall(Url("https", Host, RefreshPath, query, ""), body)
    }

    /**
     * `_refresh_access_token`. `response` is the parsed reply to the POST (`None` when the
     * request or decoding raised); `sent` is the POST made, if any.
     */
    method RefreshAccessToken(store: TokenStore, now: int, response: Option<Json.Json>) returns (ok: bool, sent: Option<RefreshCall>)
      modifies this, store
      ensures var o := Refresh(old(Current()), response, now, RefreshLifetimeKey, RefreshDefaultLifetime);
        ok == o.ok && Current() == o.tokens
        && store.State() == (if o.saved.Some?
                             then SaveTokens(old(store.State()), PlatformName, o.saved.value.accessToken,
                                             o.saved.value.refreshToken, o.saved.value.tokenExpiry)
                             else old(store.State()))
      ensures sent.Some? <==> HasText(old(refreshToken))
      ensures sent.Some? ==> sent.value == RefreshRequest(old(refreshToken).value, now)
      ensures stateChecked == old(stateChecked)
    {
      if !HasText(refreshToken) {
        return false, None;
      }
      sent := Some(RefreshRequest(refreshToken.value, now));
      if response.None? {
        return false, sent;
      }
      var data := response.value;
      assert Refresh(Current(), response, now, RefreshLifetimeKey, RefreshDefaultLifetime)
        == ApplyResponse(Current(), data, now, RefreshLifetimeKey, RefreshDefaultLifetime);
      var access := Json.Get(data, "access_token");
      if !Json.Truthy(access) {
        return false, sent;
      }
      var newAccess := Json.Str(access);
      var newRefresh := match Json.Field(data, "refresh_token") case Some(j) => TokenText(j) case None => refreshToken;
      var lifetime := match Json.Field(data, RefreshLifetimeKey) case Some(j) => Json.IntValue(j) case None => Some(RefreshDefaultLifetime);
      accessToken := newAccess;
      refreshToken := newRefresh;
      if lifetime.None? {
        // Adding a non-number to the clock raises; the handler returns False.
        return false, sent;
      }
      tokenExpiry := now + lifetime.value;
      store.Save(PlatformName, newAccess, newRefresh, tokenExpiry);
      ok := true;
    }

    /** The query `__call__` writes for a request to `u` at time `now`, with the current tokens. */
    function SignedParams(u: Url, now: int): (p: Dict<QValue>)
      reads this
      ensures forall k :: k in Keys(p) <==> k in Keys(u.query) || k in AuthParamKeys
    {
      Merge(Flatten(u.query), AuthParams(partnerId, shopId, accessToken, now, GenerateSignature(RequestPath(u), now)))
    }

    /**
     * `__call__`: checks the state once, refreshes an expired token when `autoRefresh`
     * holds (a failed refresh is ignored), then rewrites the URL's query to the existing
     * parameters overridden by the five auth parameters signed with the current token.
     */
    method Call(request: PreparedRequest, store: TokenStore, now: int, refreshResponse: Option<Json.Json>)
      returns (sent: Option<RefreshCall>)
      requires request != store as object
      modifies this, request, store
      ensures stateChecked
      ensures var adopted := if old(stateChecked) then old(Current()) else Adopt(old(Current()), old(store.Load(PlatformName)), now);
        var refreshing := autoRefresh && IsTokenExpired(now, adopted.tokenExpiry, DefaultBufferMinutes);
        var o := Refresh(adopted, refreshResponse, now, RefreshLifetimeKey, RefreshDefaultLifetime);
        Current() == (if refreshing then o.tokens else adopted)
        && store.State() == (if refreshing && o.saved.Some?
                             then SaveTokens(old(store.State()), PlatformName, o.saved.value.accessToken,
                                             o.saved.value.refreshToken, o.saved.value.tokenExpiry)
                             else old(store.State()))
        && (sent.Some? <==> refreshing && HasText(adopted.refreshToken))
      ensures request.url == old(request.url).(query := EncodeSeq(SignedParams(old(request.url), now)))
      ensures request.body == old(request.body)
    {
      CheckStateForTokens(store, now);
      sent := RefreshIfDue(store, now, refreshResponse);
      assert request.url == old(request.url) && request.body == old(request.body);
      var params := SignedParams(request.url, now);
      request.url := request.url.(query := EncodeSeq(params));
    }

    /**
     * The refresh step of `__call__`: with automatic refresh on, a token that is (about
     * to be) expired is refreshed; otherwise nothing happens.
     */
    method RefreshIfDue(store: TokenStore, now: int, response: Option<Json.Json>)
      returns (sent: Option<RefreshCall>)
      modifies this, store
      ensures var refreshing := autoRefresh && IsTokenExpired(now, old(tokenExpiry), DefaultBufferMinutes);
        var o := Refresh(old(Current()), response, now, RefreshLifetimeKey, RefreshDefaultLifetime);
        Current() == (if refreshing then o.tokens else old(Current()))
        && store.State() == (if refreshing && o.saved.Some?
                             then SaveTokens(old(store.State()), PlatformName, o.saved.value.accessToken,
                                             o.saved.value.refreshToken, o.saved.value.tokenExpiry)
                             else old(store.State()))
        && (sent.Some? <==> refreshing && HasText(old(refreshToken)))
      ensures stateChecked == old(stateChecked)
    {
      sent := None;
      if autoRefresh && IsTokenExpired(now, tokenExpiry, DefaultBufferMinutes) {
        var ok;
        ok, sent := RefreshAccessToken(store, now, response);
      }
    }
  }
}
