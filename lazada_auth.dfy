/**
 * `LazadaAuth` (lazadaclient/auth.py), used for both Lazada and Redmart: adds the system
 * parameters to every request, signs all parameters with the sorted-key signer, and puts
 * them in the query string of a GET or the form body of anything else. Token adoption
 * and refresh follow the same rules as Shopee's, under the platform's own name.
 *
 * Two clocks appear as parameters: `now` (epoch seconds, for expiry arithmetic) and
 * `millis` (epoch milliseconds, for the `timestamp` parameter).
 */
module LazadaClient {
  import opened Wrappers
  import Text
  import opened PyDict
  import Json
  import Signature
  import opened TokenManager
  import opened TokenLifecycle
  import opened Http

  const AuthHost: string := "auth.lazada.com"
  const RefreshApiPath: string := "/auth/token/refresh"
  /** Assumed lifetime of the constructor's token when none is given: six hours. */
  const DefaultLifetime: int := 21600
  /** Lifetime of a refreshed token when the response does not say: seven days. */
  const RefreshDefaultLifetime: int := 604800
  const RefreshLifetimeKey: string := "expires_in"
  const SignMethod: string := "sha256"

  /**
   * The API path of a request URL: the text after the first `/rest` up to the first `?`,
   * or `/` when the URL has no `/rest` (an empty URL included).
   */
  function ApiPath(url: string): (p: string)
    ensures Text.Find(url, "/rest").None? ==> p == "/"
    ensures Text.Find(url, "/rest").Some? ==>
      var after := url[Text.Find(url, "/rest").value + 5..];
      |p| <= |after| && p == after[..|p|] && (|p| == |after| || after[|p|] == '?')
      && forall k :: 0 <= k < |p| ==> p[k] != '?'
  {
    if url == "" then "/"
    else match Text.Find(url, "/rest")
      case None => "/"
      case Some(i) =>
        var after := url[i + 5..];
        match Text.Find(after, "?")
        case None =>
          assert forall k: nat :: k < |after| ==> !Text.OccursAt(after, "?", k);
          assert forall k :: 0 <= k < |after| ==> after[k] != '?' by {
            forall k | 0 <= k < |after| ensures after[k] != '?' {
              assert !Text.OccursAt(after, "?", k);
              assert after[k..k + 1] == [after[k]];
            }
          }
          after
        case Some(j) =>
          assert Text.OccursAt(after, "?", j);
          assert after[j..j + 1] == [after[j]];
          forall k | 0 <= k < j ensures after[k] != '?' {
            assert !Text.OccursAt(after, "?", k);
            assert after[k..k + 1] == [after[k]];
          }
          after[..j]
  }

  /** The system parameters: app key, sign method and timestamp, and the access token when non-empty. */
  function SystemParams(appKey: string, timestamp: string, accessToken: Option<string>): (p: Dict<QValue>)
    ensures Keys(p) == ["app_key", "sign_method", "timestamp"] + (if HasText(accessToken) then ["access_token"] else [])
    ensures DistinctKeys(p)
    ensures Get(p, "app_key") == Some(One(appKey))
    ensures Get(p, "sign_method") == Some(One(SignMethod))
    ensures Get(p, "timestamp") == Some(One(timestamp))
    ensures HasText(accessToken) ==> Get(p, "access_token") == Some(One(accessToken.value))
  {
    var base := [("app_key", One(appKey)), ("sign_method", One(SignMethod)), ("timestamp", One(timestamp))];
    var p := if HasText(accessToken) then base + [("access_token", One(accessToken.value))] else base;
    assert Keys(p) == ["app_key", "sign_method", "timestamp"] + (if HasText(accessToken) then ["access_token"] else []);
    GetAt(p, 0);
    GetAt(p, 1);
    GetAt(p, 2);
    assert HasText(accessToken) ==> Get(p, "access_token") == Some(One(accessToken.value)) by {
      if HasText(accessToken) {
        GetAt(p, 3);
      }
    }
    p
  }

  /** The URL's own parameters, flattened; none when the URL has no `?`. */
  function ExistingParams(u: Url): (p: Dict<QValue>)
    ensures UrlText(u) == "" || '?' !in UrlText(u) ==> p == []
    ensures UrlText(u) != "" && '?' in UrlText(u) ==> EncodeSeq(p) == u.query && Keys(p) == Keys(u.query)
  {
    var text := UrlText(u);
    if text != "" && '?' in text then
      FlattenThenEncodeSeq(u.query);
      Flatten(u.query)
    else []
  }

  /** Every value as the signer renders it into the string to sign. */
  function SigningView(p: Dict<QValue>): Dict<string> {
    MapValues(p, ValueText)
  }

  /**
   * `sign` is computed over the merged parameters before it is added; the system
   * parameters override the URL's, and every other URL parameter is kept.
   */
  lemma SignedParamsContent(existing: Dict<QValue>, system: Dict<QValue>, sign: string, k: string)
    requires DistinctKeys(system) && "sign" !in Keys(system)
    ensures var all := Put(Merge(existing, system), "sign", One(sign));
      Get(all, k) == if k == "sign" then Some(One(sign))
                     else if k in Keys(system) then Get(system, k)
                     else Get(existing, k)
  {
    MergeGet(existing, system, k);
    PutGet(Merge(existing, system), "sign", One(sign), k);
  }

  /** The form `_refresh_access_token` posts to the auth host. */
  datatype RefreshCall = RefreshCall(url: Url, form: Dict<string>)

  class LazadaAuth {
    const appKey: string
    const appSecret: string
    const platform: string
    const autoRefresh: bool
    /** HMAC-SHA256. */
    const mac: Signature.Mac
    var accessToken: Option<string>
    var refreshToken: Option<string>
    var tokenExpiry: int
    var stateChecked: bool

    /** `LazadaAuth(...)` at time `now`; `platform` is `"lazada"` or `"redmart"`. */
    constructor(appKey: string, appSecret: string, accessToken: Option<string>, refreshToken: Option<string>,
                tokenExpirySeconds: Option<int>, platform: string, autoRefresh: bool, mac: Signature.Mac, now: int)
      ensures this.appKey == appKey && this.appSecret == appSecret && this.platform == platform
      ensures this.autoRefresh == autoRefresh && this.mac == mac
      ensures Current() == Tokens(accessToken, refreshToken, InitialExpiry(now, tokenExpirySeconds, DefaultLifetime))
      ensures !stateChecked
    {
      this.appKey := appKey;
      this.appSecret := appSecret;
      this.accessToken := accessToken;
      this.refreshToken := refreshToken;
      this.platform := platform;
      this.autoRefresh := autoRefresh;
      this.mac := mac;
      stateChecked := false;
      if tokenExpirySeconds.Some? && tokenExpirySeconds.value != 0 {
        tokenExpiry := now + tokenExpirySeconds.value;
      } else {
        tokenExpiry := now + DefaultLifetime;
      }
    }

    function Current(): Tokens
      reads this
    {
      Tokens(accessToken, refreshToken, tokenExpiry)
    }

    /** `_check_state_for_tokens`: adopts this platform's stored tokens on the first call only. */
    method CheckStateForTokens(store: TokenStore, now: int)
      modifies this
      ensures stateChecked
      ensures old(stateChecked) ==> Current() == old(Current())
      ensures !old(stateChecked) ==> Current() == Adopt(old(Current()), store.Load(platform), now)
    {
      if stateChecked {
        return;
      }
      stateChecked := true;
      var stored := store.Load(platform);
      if stored.Some? {
        var expiry := ParseTokenExpiry(Some(stored.value.tokenExpiry));
        if expiry.Some? && !IsTokenExpired(now, expiry.value, DefaultBufferMinutes) {
          accessToken := Some(stored.value.accessToken);
          refreshToken := stored.value.refreshToken;
          tokenExpiry := expiry.value;
        } else if HasText(stored.value.refreshToken) {
          refreshToken := stored.value.refreshToken;
        }
      }
    }

    /** The signed form of a refresh with `refresh` as the refresh token; `sign` is added last. */
    function RefreshRequest(refresh: string, millis: int): (call: RefreshCall)
      reads this
      ensures Keys(call.form) == ["app_key", "sign_method", "timestamp", "refresh_token", "sign"]
      ensures call.form[4] == ("sign", Signature.GenerateSignature(mac, appSecret, RefreshApiPath, call.form[..4]))
      ensures call.form[..4] == [("app_key", appKey), ("sign_method", SignMethod), ("timestamp", Text.IntToString(millis)),
                                 ("refresh_token", refresh)]
      ensures call.url == Url("https", AuthHost, "/rest" + RefreshApiPath, [], "")
    {
      var params := [("app_key", appKey), ("sign_method", SignMethod), ("timestamp", Text.IntToString(millis)),
                     ("refresh_token", refresh)];
      assert Keys(params) == ["app_key", "sign_method", "timestamp", "refresh_token"];
      var sign := Signature.GenerateSignature(mac, appSecret, RefreshApiPath, params);
      var form := params + [("sign", sign)];
      assert Keys(form) == Keys(params) + ["sign"];
      assert form[..4] == params;
      RefreshCall(Url("https", AuthHost, "/rest" + RefreshApiPath, [], ""), form)
    }

    /**
     * `_refresh_access_token`. `response` is the parsed reply to the POST (`None` when the
     * request or decoding raised); `sent` is the POST made, if any.
     */
    method RefreshAccessToken(store: TokenStore, now: int, millis: int, response: Option<Json.Json>)
      returns (ok: bool, sent: Option<RefreshCall>)
      modifies this, store
      ensures var o := Refresh(old(Current()), response, now, RefreshLifetimeKey, RefreshDefaultLifetime);
        ok == o.ok && Current() == o.tokens
        && store.State() == (if o.saved.Some?
                             then SaveTokens(old(store.State()), platform, o.saved.value.accessToken,
                                             o.saved.value.refreshToken, o.saved.value.tokenExpiry)
                             else old(store.State()))
      ensures sent.Some? <==> HasText(old(refreshToken))
      ensures sent.Some? ==> sent.value == RefreshRequest(old(refreshToken).value, millis)
      ensures stateChecked == old(stateChecked)
    {
      if !HasText(refreshToken) {
        return false, None;
      }
      sent := Some(RefreshRequest(refreshToken.value, millis));
      if response.None? {
        return false, sent;
      }
      var data := response.value;
      assert Refresh(Current(), response, now, RefreshLifetimeKey, RefreshDefaultLifetime)
        == ApplyResponse(Current(), data, now, RefreshLifetimeKey, RefreshDefaultLifetime);
      var access := Json.Get(data, "access_token");
      if !Json.Truthy(access) {
        return false, sent;
      }
      var newAccess := Json.Str(access);
      var newRefresh := match Json.Field(data, "refresh_token") case Some(j) => TokenText(j) case None => refreshToken;
      var lifetime := match Json.Field(data, RefreshLifetimeKey) case Some(j) => Json.IntValue(j) case None => Some(RefreshDefaultLifetime);
      accessToken := Some(newAccess);
      refreshToken := newRefresh;
      if lifetime.None? {
        // Adding a non-number to the clock raises; the handler returns False.
        return false, sent;
      }
      tokenExpiry := now + lifetime.value;
      store.Save(platform, newAccess, newRefresh, tokenExpiry);
      ok := true;
    }

    /** All parameters `__call__` sends for a request to `u`, `sign` last, with the current tokens. */
    function SignedParams(u: Url, millis: int): (p: Dict<QValue>)
      reads this
      ensures var all := Merge(ExistingParams(u), SystemParams(appKey, Text.IntToString(millis), accessToken));
        Get(p, "sign") == Some(One(Signature.GenerateSignature(mac, appSecret, ApiPath(UrlText(u)), SigningView(all))))
    {
      var all := Merge(ExistingParams(u), SystemParams(appKey, Text.IntToString(millis), accessToken));
      var sign := Signature.GenerateSignature(mac, appSecret, ApiPath(UrlText(u)), SigningView(all));
      PutGet(all, "sign", One(sign), "sign");
      Put(all, "sign", One(sign))
    }

    /**
     * `__call__`: checks the state once, refreshes an expired token when `autoRefresh`
     * holds and an access token is set (a failed refresh is ignored), then signs all
     * parameters and puts them in the query of a GET or the form body of any other method.
     */
    method Call(request: PreparedRequest, store: TokenStore, now: int, millis: int, refreshResponse: Option<Json.Json>)
      returns (sent: Option<RefreshCall>)
      requires request != store as object
      modifies this, request, store
      ensures stateChecked
      ensures var adopted := if old(stateChecked) then old(Current()) else Adopt(old(Current()), old(store.Load(platform)), now);
        var refreshing := autoRefresh && HasText(adopted.accessToken) && IsTokenExpired(now, adopted.tokenExpiry, DefaultBufferMinutes);
        var o := Refresh(adopted, refreshResponse, now, RefreshLifetimeKey, RefreshDefaultLifetime);
        Current() == (if refreshing then o.tokens else adopted)
        && store.State() == (if refreshing && o.saved.Some?
                             then SaveTokens(old(store.State()), platform, o.saved.value.accessToken,
                                             o.saved.value.refreshToken, o.saved.value.tokenExpiry)
                             else old(store.State()))
        && (sent.Some? <==> refreshing && HasText(adopted.refreshToken))
      ensures request.verb == "GET" ==>
        request.url == old(request.url).(query := EncodeNoSeq(SignedParams(old(request.url), millis)))
        && request.body == old(request.body)
      ensures request.verb != "GET" ==>
        request.url == old(request.url) && request.body == Some(EncodeSeq(SignedParams(old(request.url), millis)))
    {
      CheckStateForTokens(store, now);
      sent := RefreshIfDue(store, now, millis, refreshResponse);
      assert request.url == old(request.url) && request.body == old(request.body);
      var params := SignedParams(request.url, millis);
      ApplyParams(request, params);
      assert params == SignedParams(old(request.url), millis);
    }

    /**
     * The refresh step of `__call__`: with automatic refresh on, a set access token that
     * is (about to be) expired is refreshed; otherwise nothing happens.
     */
    method RefreshIfDue(store: TokenStore, now: int, millis: int, response: Option<Json.Json>)
      returns (sent: Option<RefreshCall>)
      modifies this, store
      ensures var refreshing := autoRefresh && HasText(old(accessToken)) && IsTokenExpired(now, old(tokenExpiry), DefaultBufferMinutes);
        var o := Refresh(old(Current()), response, now, RefreshLifetimeKey, RefreshDefaultLifetime);
        Current() == (if refreshing then o.tokens else old(Current()))
        && store.State() == (if refreshing && o.saved.Some?
                             then SaveTokens(old(store.State()), platform, o.saved.value.accessToken,
                                             o.saved.value.refreshToken, o.saved.value.tokenExpiry)
                             else old(store.State()))
        && (sent.Some? <==> refreshing && HasText(old(refreshToken)))
      ensures stateChecked == old(stateChecked)
    {
      sent := None;
      if autoRefresh && HasText(accessToken) && IsTokenExpired(now, tokenExpiry, DefaultBufferMinutes) {
        var ok;
        ok, sent := RefreshAccessToken(store, now, millis, response);
      }
    }
  }

  /**
   * The last step of `__call__`: the parameters go into the query of a GET and into the
   * form body of any other method.
   */
  method ApplyParams(request: PreparedRequest, params: Dict<QValue>)
    modifies request
    ensures request.verb == "GET" ==>
      request.url == old(request.url).(query := EncodeNoSeq(params)) && request.body == old(request.body)
    ensures request.verb != "GET" ==> request.url == old(request.url) && request.body == Some(EncodeSeq(params))
  {
    if request.verb == "GET" {
      request.url := request.url.(query := EncodeNoSeq(params));
    } else {
      request.PrepareBody(params);
    }
  }
}
