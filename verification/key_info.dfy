/**
 The key-info view (`CheckRates`): from the caller's access token and the
 throttle cache to a report of the caller's recent usage.

 The cache is a read-only parameter (the view never writes it); the result
 records which cache keys were read, in order, next to the response.
 */
module KeyInfo {
  import opened Optional
  import opened Http
  import Settings

  /** The rate-limit models an application can have. */
  datatype Tier = Standard | Enhanced | Exempt

  /** The name of a tier; distinct tiers have distinct names. */
  function TierName(t: Tier): (name: string)
    ensures t == Standard <==> name == "standard"
    ensures t == Enhanced <==> name == "enhanced"
    ensures t == Exempt <==> name == "exempt"
  {
    match t
    case Standard => "standard"
    case Enhanced => "enhanced"
    case Exempt => "exempt"
  }

  /** Recognises a rate-limit model; anything else (including no model at all) is unknown. */
  function ParseTier(model: Option<string>): (t: Option<Tier>)
    ensures t.Some? <==> model.Some? && model.value in {"standard", "enhanced", "exempt"}
    ensures t.Some? ==> model == Some(TierName(t.value))
  {
    match model
    case Some("standard") => Some(Standard)
    case Some("enhanced") => Some(Enhanced)
    case Some("exempt") => Some(Exempt)
    case _ => None
  }

  /** Parsing inverts naming. */
  lemma ParseTierName(t: Tier)
    ensures ParseTier(Some(TierName(t))) == Some(t)
  {
  }

  const KeyPrefix := "throttle_"

  /** The throttle cache key `throttle_{scope}_{client_id}`. */
  function ThrottleKey(scope: string, clientId: string): (key: string)
    ensures |key| == |KeyPrefix| + |scope| + 1 + |clientId|
    ensures key[..|KeyPrefix|] == KeyPrefix
    ensures key[|KeyPrefix|..|KeyPrefix| + |scope|] == scope
    ensures key[|KeyPrefix| + |scope|] == '_'
    ensures key[|KeyPrefix| + |scope| + 1..] == clientId
  {
    KeyPrefix + scope + "_" + clientId
  }

  /** Reads the scope back out of a key made for `clientId`, if it has that shape. */
  function ScopeOfKey(key: string, clientId: string): (scope: Option<string>)
    ensures scope.Some? ==> ThrottleKey(scope.value, clientId) == key
  {
    var n := |KeyPrefix|;
    var m := |key| - |clientId| - 1;
    if n <= m && key[..n] == KeyPrefix && key[m] == '_' && key[m + 1..] == clientId then
      var scope := key[n..m];
      assert key == key[..n] + key[n..m] + [key[m]] + key[m + 1..];
      Some(scope)
    else
      None
  }

  /** A key determines its scope once the client is known. */
  lemma ScopeOfThrottleKey(scope: string, clientId: string)
    ensures ScopeOfKey(ThrottleKey(scope, clientId), clientId) == Some(scope)
  {
  }

  /** A key has a scope for `clientId` exactly when some scope builds it for that client. */
  lemma ScopeOfKeyComplete(key: string, clientId: string)
    ensures ScopeOfKey(key, clientId).None? <==> forall scope :: ThrottleKey(scope, clientId) != key
  {
  }

  /** For one client, different scopes never share a cache key. */
  lemma ThrottleKeyInjective(scope1: string, scope2: string, clientId: string)
    requires scope1 != scope2
    ensures ThrottleKey(scope1, clientId) != ThrottleKey(scope2, clientId)
  {
  }

  /** The scope under which the exempt model's usage is looked up, for both windows. */
  const ExemptKeyScope := "exempt_oauth2_client_credentials_burst"

  /** The scope of a tier's burst window: the rated burst scope for standard and enhanced. */
  function BurstScope(t: Tier): (scope: string)
    ensures t == Standard <==> scope == Settings.StandardBurstScope
    ensures t == Enhanced <==> scope == Settings.EnhancedBurstScope
    ensures t == Exempt <==> scope == ExemptKeyScope
    ensures t != Exempt <==> scope in Settings.RatedScopes
  {
    match t
    case Standard => Settings.StandardBurstScope
    case Enhanced => Settings.EnhancedBurstScope
    case Exempt => ExemptKeyScope
  }

  /** The scope of a tier's sustained window; the exempt tier reuses its burst scope. */
  function SustainedScope(t: Tier): (scope: string)
    ensures t == Standard <==> scope == Settings.StandardSustainedScope
    ensures t == Enhanced <==> scope == Settings.EnhancedSustainedScope
    ensures t == Exempt <==> scope == ExemptKeyScope == BurstScope(t)
    ensures t != Exempt <==> scope in Settings.RatedScopes
  {
    match t
    case Standard => Settings.StandardSustainedScope
    case Enhanced => Settings.EnhancedSustainedScope
    case Exempt => ExemptKeyScope
  }

  /**
   The burst and sustained keys coincide exactly for the exempt model; the standard
   and enhanced keys name rated scopes of the settings table, the exempt key does not.
   */
  lemma TierScopes(t: Tier, clientId: string)
    ensures ThrottleKey(BurstScope(t), clientId) == ThrottleKey(SustainedScope(t), clientId) <==> t == Exempt
    ensures t != Exempt <==> BurstScope(t) in Settings.RatedScopes && SustainedScope(t) in Settings.RatedScopes
    ensures ExemptKeyScope != Settings.ExemptScope
  {
  }

  /** Different models never share a burst or a sustained key for the same client. */
  lemma TierKeysDistinct(t1: Tier, t2: Tier, clientId: string)
    requires t1 != t2
    ensures ThrottleKey(BurstScope(t1), clientId) != ThrottleKey(BurstScope(t2), clientId)
    ensures ThrottleKey(SustainedScope(t1), clientId) != ThrottleKey(SustainedScope(t2), clientId)
  {
  }

  /** The throttle cache: each key holds the timestamps of the requests in its window. */
  type Cache = map<string, seq<real>>

  /** A window's request count; `None` for a missing key and for an empty list alike. */
  function RequestCount(cache: Cache, key: string): (count: Option<nat>)
    ensures count.Some? <==> key in cache && |cache[key]| > 0
    ensures count.Some? ==> count.value == |cache[key]| > 0
  {
    if key in cache && cache[key] != [] then Some(|cache[key]|) else None
  }

  /** What `get_token_info` says about an access token. */
  datatype TokenInfo = TokenInfo(clientId: Option<string>, rateLimitModel: Option<string>, verified: Option<bool>)

  /** Python truthiness of the client id: neither `None` nor the empty string. */
  predicate HasClientId(info: TokenInfo) {
    info.clientId.Some? && info.clientId.value != ""
  }

  /** The response plus the cache keys read to build it, in order. */
  datatype KeyInfoReply = KeyInfoReply(response: Response, keysRead: seq<string>)

  const Forbidden := Response(403, Text("Forbidden"))
  const UnknownModel := Response(500, Text("Unknown API key rate limit type"))

  /**
   `GET` on the key-info endpoint. `auth` is the request's access token if any;
   `tokenInfo` stands for `get_token_info`.
   */
  function CheckRates(auth: Option<string>, tokenInfo: string -> TokenInfo, cache: Cache): (r: KeyInfoReply)
    // No token, or a token without a client id: 403 and no cache read.
    ensures auth.None? || !HasClientId(tokenInfo(auth.value)) ==>
              r == KeyInfoReply(Forbidden, [])
    // A client with an unrecognised model: 500 and no cache read.
    ensures auth.Some? && HasClientId(tokenInfo(auth.value))
            && ParseTier(tokenInfo(auth.value).rateLimitModel).None? ==>
              r == KeyInfoReply(UnknownModel, [])
    // A recognised model: 200 reporting the two windows' counts from the cache.
    ensures r.response.status == 200 <==>
              auth.Some? && HasClientId(tokenInfo(auth.value))
              && ParseTier(tokenInfo(auth.value).rateLimitModel).Some?
    ensures r.response.status == 200 ==>
              var info := tokenInfo(auth.value);
              var t := ParseTier(info.rateLimitModel).value;
              var burstKey := ThrottleKey(BurstScope(t), info.clientId.value);
              var sustainedKey := ThrottleKey(SustainedScope(t), info.clientId.value);
              && r.keysRead == [sustainedKey, burstKey]
              && r.response.body.KeyReport?
              && (r.response.body.requestsThisMinute.Some? <==> burstKey in cache && cache[burstKey] != [])
              && (r.response.body.requestsThisMinute.Some? ==>
                    r.response.body.requestsThisMinute.value == |cache[burstKey]|)
              && (r.response.body.requestsToday.Some? <==> sustainedKey in cache && cache[sustainedKey] != [])
              && (r.response.body.requestsToday.Some? ==>
                    r.response.body.requestsToday.value == |cache[sustainedKey]|)
              && Some(r.response.body.rateLimitModel) == info.rateLimitModel
              && r.response.body.verified == info.verified
    ensures r.response.status in {200, 403, 500}
  {
    if auth.None? then
      KeyInfoReply(Forbidden, [])
    else
      var info := tokenInfo(auth.value);
      if !HasClientId(info) then
        KeyInfoReply(Forbidden, [])
      else
        match ParseTier(info.rateLimitModel)
        case None => KeyInfoReply(UnknownModel, [])
        case Some(t) =>
          var clientId := info.clientId.value;
          var sustainedKey := ThrottleKey(SustainedScope(t), clientId);
          var burstKey := ThrottleKey(BurstScope(t), clientId);
          var body := KeyReport(RequestCount(cache, burstKey), RequestCount(cache, sustainedKey), TierName(t), info.verified);
          KeyInfoReply(Response(200, body), [sustainedKey, burstKey])
  }

  /** The exempt model reports the same count for the minute and the day. */
  lemma ExemptCountsAgree(auth: Option<string>, tokenInfo: string -> TokenInfo, cache: Cache)
    requires auth.Some? && HasClientId(tokenInfo(auth.value))
    requires tokenInfo(auth.value).rateLimitModel == Some("exempt")
    ensures var body := CheckRates(auth, tokenInfo, cache).response.body;
            body.KeyReport? && body.requestsThisMinute == body.requestsToday
  {
  }

  /** With no traffic recorded, a recognised client is reported with null counts, never zero. */
  lemma NoTrafficReportsNull(auth: Option<string>, tokenInfo: string -> TokenInfo)
    requires auth.Some? && HasClientId(tokenInfo(auth.value))
    requires ParseTier(tokenInfo(auth.value).rateLimitModel).Some?
    ensures var body := CheckRates(auth, tokenInfo, map[]).response.body;
            body.KeyReport? && body.requestsThisMinute == None && body.requestsToday == None
  {
  }
}
