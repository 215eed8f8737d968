/**
 * The token store kept in the pipeline's persisted state (sellpipelines/token_manager.py):
 * one record per platform under the key `<platform>_oauth_tokens`, the expiry test with a
 * safety buffer, and the reading of a stored expiry timestamp.
 *
 * Instants are whole seconds since the epoch. The ISO-8601 text the source writes and
 * reads is replaced by the decimal rendering of those seconds; what matters to the
 * callers, that reading back what was written gives the same instant, is proved here.
 */
module TokenManager {
  import opened Wrappers
  import Text

  /** The record saved per platform. */
  datatype TokenData = TokenData(accessToken: string, refreshToken: Option<string>, tokenExpiry: string)

  const TokenKeySuffix: string := "_oauth_tokens"
  const DefaultBufferMinutes: int := 5

  /** `get_token_state_key`: the platform name followed by `_oauth_tokens`. */
  function TokenStateKey(platform: string): (key: string)
    ensures |key| == |platform| + |TokenKeySuffix|
    ensures key[..|platform|] == platform && key[|platform|..] == TokenKeySuffix
  {
    platform + TokenKeySuffix
  }

  /** Distinct platforms never share a state entry. */
  lemma TokenStateKeyInjective(p: string, q: string)
    requires p != q
    ensures TokenStateKey(p) != TokenStateKey(q)
  {
    if |p| == |q| {
      var i :| 0 <= i < |p| && p[i] != q[i];
      assert TokenStateKey(p)[i] == p[i] && TokenStateKey(q)[i] == q[i];
    }
  }

  /** `token_expiry.isoformat()`, as the decimal count of seconds. */
  function IsoFormat(instant: int): (text: string)
    ensures text != ""
  {
    Text.IntToString(instant)
  }

  /** `parse_token_expiry`: nothing for a missing or empty string or one that does not parse. */
  function ParseTokenExpiry(text: Option<string>): (r: Option<int>)
    ensures text.None? || text == Some("") ==> r.None?
  {
    match text
    case None => None
    case Some(s) => if s == "" then None else Text.ParseInt(s)
  }

  /** A stored expiry reads back as the instant that was saved. */
  lemma ParseIsoFormat(instant: int)
    ensures ParseTokenExpiry(Some(IsoFormat(instant))) == Some(instant)
  {
    Text.ParseIntToString(instant);
  }

  /** `is_token_expired`: expired from `bufferMinutes` minutes before the expiry on. */
  predicate IsTokenExpired(now: int, expiry: int, bufferMinutes: int): (expired: bool)
    ensures expired <==> expiry - now <= bufferMinutes * 60
    ensures now >= expiry && bufferMinutes >= 0 ==> expired
  {
    now >= expiry - bufferMinutes * 60
  }

  // The three facts below follow from the definition of IsTokenExpired alone; they are
  // stated to record the expiry rule, not because they need a proof.

  /** Once expired, a token stays expired as time goes on. */
  lemma ExpiredStaysExpired(now: int, later: int, expiry: int, bufferMinutes: int)
    requires now <= later && IsTokenExpired(now, expiry, bufferMinutes)
    ensures IsTokenExpired(later, expiry, bufferMinutes)
  {
  }

  /** A larger buffer never turns an expired token back into a valid one. */
  lemma LargerBufferStaysExpired(now: int, expiry: int, buffer: int, larger: int)
    requires buffer <= larger && IsTokenExpired(now, expiry, buffer)
    ensures IsTokenExpired(now, expiry, larger)
  {
  }

  /** With the default buffer, a token counts as expired exactly from 300 seconds before its expiry. */
  lemma DefaultBufferIsFiveMinutes(now: int, expiry: int)
    ensures IsTokenExpired(now, expiry, DefaultBufferMinutes) <==> expiry - now <= 300
  {
  }

  /**
   * `load_tokens_from_state` on the state map (or on no state at all, when it cannot be
   * reached): the record under the platform's key, if any.
   */
  function LoadTokens(state: Option<map<string, TokenData>>, platform: string): (r: Option<TokenData>)
    ensures r.Some? <==> state.Some? && TokenStateKey(platform) in state.value
    ensures r.Some? ==> r.value == state.value[TokenStateKey(platform)]
  {
    match state
    case None => None
    case Some(m) =>
      var key := TokenStateKey(platform);
      if key in m then Some(m[key]) else None
  }

  /** `save_tokens_to_state` on the state map; an unreachable state is left as it is. */
  function SaveTokens(state: Option<map<string, TokenData>>, platform: string,
                      accessToken: string, refreshToken: Option<string>, expiry: int): (r: Option<map<string, TokenData>>)
    ensures r.Some? <==> state.Some?
    ensures r.Some? ==> r.value.Keys == state.value.Keys + {TokenStateKey(platform)}
  {
    match state
    case None => None
    case Some(m) => Some(m[TokenStateKey(platform) := TokenData(accessToken, refreshToken, IsoFormat(expiry))])
  }

  /** Loading right after a save gives back the saved tokens and an expiry that reads as the saved instant. */
  lemma LoadAfterSave(m: map<string, TokenData>, platform: string, accessToken: string,
                      refreshToken: Option<string>, expiry: int)
    ensures var loaded := LoadTokens(SaveTokens(Some(m), platform, accessToken, refreshToken, expiry), platform);
      loaded.Some?
      && loaded.value.accessToken == accessToken
      && loaded.value.refreshToken == refreshToken
      && ParseTokenExpiry(Some(loaded.value.tokenExpiry)) == Some(expiry)
  {
    ParseIsoFormat(expiry);
  }

  /** Saving under one platform leaves every other platform's tokens as they were. */
  lemma SaveKeepsOtherPlatforms(state: Option<map<string, TokenData>>, platform: string, other: string,
                                accessToken: string, refreshToken: Option<string>, expiry: int)
    requires other != platform
    ensures LoadTokens(SaveTokens(state, platform, accessToken, refreshToken, expiry), other) == LoadTokens(state, other)
  {
    TokenStateKeyInjective(platform, other);
  }

  /**
   * The pipeline's persisted state as the token helpers see it: the entries, and whether
   * the state can be reached at all (outside a running pipeline it cannot).
   */
  class TokenStore {
    var entries: map<string, TokenData>
    const available: bool

    constructor(entries: map<string, TokenData>, available: bool)
      ensures this.entries == entries && this.available == available
    {
      this.entries := entries;
      this.available := available;
    }

    function State(): Option<map<string, TokenData>>
      reads this
    {
      if available then Some(entries) else None
    }

    /** `load_tokens_from_state(platform)`. */
    function Load(platform: string): (r: Option<TokenData>)
      reads this
      ensures r == LoadTokens(State(), platform)
    {
      if available && TokenStateKey(platform) in entries then Some(entries[TokenStateKey(platform)]) else None
    }

    /** `save_tokens_to_state(...)`: never fails; an unreachable state is left as it is. */
    method Save(platform: string, accessToken: string, refreshToken: Option<string>, expiry: int)
      modifies this
      ensures State() == SaveTokens(old(State()), platform, accessToken, refreshToken, expiry)
    {
      if available {
        entries := entries[TokenStateKey(platform) := TokenData(accessToken, refreshToken, IsoFormat(expiry))];
      }
    }
  }
}
