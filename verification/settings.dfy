/**
 The throttling and token-lifetime part of the catalog's Django settings.

 Rates are literal data (`Rate(100, Minute)` for the string "100/min"); turning
 such strings into numbers is the REST framework's business and is not modelled.
 Environment variables read through `config(...)` are the fields of `Environment`,
 `None` meaning the variable is unset so the default applies.
 */
module Settings {
  import opened Optional

  datatype Period = Second | Minute | Hour | Day

  /** `requests` requests allowed per `per`. */
  datatype Rate = Rate(requests: nat, per: Period)

  /** The values the settings module reads from the environment. */
  datatype Environment = Environment(
    accessTokenExpireSeconds: Option<int>,
    throttleAnonBurst: Option<Rate>,
    throttleAnonSustained: Option<Rate>,
    disableGlobalThrottling: Option<bool>)

  const NoEnvironment := Environment(None, None, None, None)

  // Throttle scopes, the keys of the rate table.
  const AnonBurstScope := "anon_burst"
  const AnonSustainedScope := "anon_sustained"
  const StandardSustainedScope := "oauth2_client_credentials_sustained"
  const StandardBurstScope := "oauth2_client_credentials_burst"
  const EnhancedSustainedScope := "enhanced_oauth2_client_credentials_sustained"
  const EnhancedBurstScope := "enhanced_oauth2_client_credentials_burst"
  const ExemptScope := "exempt_oauth2_client_credentials"

  const RatedScopes: set<string> :=
    {AnonBurstScope, AnonSustainedScope, StandardSustainedScope, StandardBurstScope,
     EnhancedSustainedScope, EnhancedBurstScope, ExemptScope}

  /** The throttle classes the REST framework applies to every view unless disabled. */
  const DefaultThrottleClasses: seq<string> := [
    "catalog.api.utils.throttle.BurstRateThrottle",
    "catalog.api.utils.throttle.SustainedRateThrottle",
    "catalog.api.utils.throttle.OAuth2IdSustainedRateThrottle",
    "catalog.api.utils.throttle.OAuth2IdBurstRateThrottle",
    "catalog.api.utils.throttle.EnhancedOAuth2IdSustainedRateThrottle",
    "catalog.api.utils.throttle.EnhancedOAuth2IdBurstRateThrottle",
    "catalog.api.utils.throttle.ExemptOAuth2IdRateThrottle"
  ]

  /** Access-token lifetime in seconds; twelve hours unless configured. */
  function AccessTokenExpireSeconds(env: Environment): (seconds: int)
    ensures env.accessTokenExpireSeconds.None? ==> seconds == 3600 * 12 == 43200
    ensures env.accessTokenExpireSeconds.Some? ==> seconds == env.accessTokenExpireSeconds.value
  {
    env.accessTokenExpireSeconds.GetOr(3600 * 12)
  }

  /** Anonymous burst rate: 5 per hour unless configured. */
  function AnonBurstRate(env: Environment): (rate: Rate)
    ensures env.throttleAnonBurst.None? ==> rate == Rate(5, Hour)
    ensures env.throttleAnonBurst.Some? ==> rate == env.throttleAnonBurst.value
  {
    env.throttleAnonBurst.GetOr(Rate(5, Hour))
  }

  /** Anonymous sustained rate: 100 per day unless configured. */
  function AnonSustainedRate(env: Environment): (rate: Rate)
    ensures env.throttleAnonSustained.None? ==> rate == Rate(100, Day)
    ensures env.throttleAnonSustained.Some? ==> rate == env.throttleAnonSustained.value
  {
    env.throttleAnonSustained.GetOr(Rate(100, Day))
  }

  /** Global throttling is switched off unless the environment says otherwise. */
  function GlobalThrottlingDisabled(env: Environment): (disabled: bool)
    ensures env.disableGlobalThrottling.None? ==> disabled
    ensures env.disableGlobalThrottling.Some? ==> disabled == env.disableGlobalThrottling.value
  {
    env.disableGlobalThrottling.GetOr(true)
  }

  /** The rate table as written, before the global-throttling override; `None` means unlimited. */
  function DefaultThrottleRates(env: Environment): (rates: map<string, Option<Rate>>)
    ensures rates.Keys == RatedScopes
    ensures rates[AnonBurstScope] == Some(AnonBurstRate(env))
    ensures rates[AnonSustainedScope] == Some(AnonSustainedRate(env))
    ensures rates[StandardSustainedScope] == Some(Rate(10000, Day))
    ensures rates[StandardBurstScope] == Some(Rate(100, Minute))
    ensures rates[EnhancedSustainedScope] == Some(Rate(20000, Day))
    ensures rates[EnhancedBurstScope] == Some(Rate(200, Minute))
    ensures rates[ExemptScope] == None
  {
    map[
      AnonBurstScope := Some(AnonBurstRate(env)),
      AnonSustainedScope := Some(AnonSustainedRate(env)),
      StandardSustainedScope := Some(Rate(10000, Day)),
      StandardBurstScope := Some(Rate(100, Minute)),
      EnhancedSustainedScope := Some(Rate(20000, Day)),
      EnhancedBurstScope := Some(Rate(200, Minute)),
      ExemptScope := None
    ]
  }

  /** The throttling part of the REST framework settings; `None` classes means the key was deleted. */
  datatype RestFramework = RestFramework(
    throttleClasses: Option<seq<string>>,
    throttleRates: map<string, Option<Rate>>)

  /** The rate update of the override: every scope kept, every rate set to `None`. */
  function NullRates(rates: map<string, Option<Rate>>): (r: map<string, Option<Rate>>)
    ensures r.Keys == rates.Keys
    ensures forall scope :: scope in r ==> r[scope] == None
  {
    map scope | scope in rates :: None
  }

  /**
   The override applied when global throttling is disabled. Deleting the class
   list needs it to be present: deleting a missing key raises.
   */
  function DisableThrottling(rf: RestFramework): (r: RestFramework)
    requires rf.throttleClasses.Some?
    ensures r.throttleRates.Keys == rf.throttleRates.Keys
    ensures forall scope :: scope in r.throttleRates ==> r.throttleRates[scope] == None
    ensures r.throttleClasses == None
  {
    RestFramework(None, NullRates(rf.throttleRates))
  }

  /** The REST framework throttling settings the module ends up with. */
  function RestFrameworkSettings(env: Environment): (rf: RestFramework)
    ensures rf.throttleRates.Keys == RatedScopes
    ensures GlobalThrottlingDisabled(env) ==>
              rf.throttleClasses == None
              && forall scope :: scope in rf.throttleRates ==> rf.throttleRates[scope] == None
    ensures !GlobalThrottlingDisabled(env) ==>
              rf.throttleClasses == Some(DefaultThrottleClasses)
              && rf.throttleRates[StandardBurstScope] == Some(Rate(100, Minute))
              && rf.throttleRates[StandardSustainedScope] == Some(Rate(10000, Day))
              && rf.throttleRates[EnhancedBurstScope] == Some(Rate(200, Minute))
              && rf.throttleRates[EnhancedSustainedScope] == Some(Rate(20000, Day))
              && rf.throttleRates[ExemptScope] == None
              && rf.throttleRates[AnonBurstScope] == Some(AnonBurstRate(env))
              && rf.throttleRates[AnonSustainedScope] == Some(AnonSustainedRate(env))
  {
    var declared := RestFramework(Some(DefaultThrottleClasses), DefaultThrottleRates(env));
    if GlobalThrottlingDisabled(env) then DisableThrottling(declared) else declared
  }

  /** The rate that applies to a scope, `None` when unlimited or unknown. */
  function RateOf(rf: RestFramework, scope: string): Option<Rate> {
    if scope in rf.throttleRates then rf.throttleRates[scope] else None
  }

  /**
   Each enhanced rate in the table is twice the matching standard rate over the
   same period, and so is each rate in force whenever throttling is enabled.
   */
  lemma EnhancedDoublesStandard(env: Environment)
    ensures var rates := DefaultThrottleRates(env);
            && rates[EnhancedBurstScope].value.requests == 2 * rates[StandardBurstScope].value.requests
            && rates[EnhancedBurstScope].value.per == rates[StandardBurstScope].value.per
            && rates[EnhancedSustainedScope].value.requests == 2 * rates[StandardSustainedScope].value.requests
            && rates[EnhancedSustainedScope].value.per == rates[StandardSustainedScope].value.per
    ensures !GlobalThrottlingDisabled(env) ==>
              var rf := RestFrameworkSettings(env);
              && RateOf(rf, EnhancedBurstScope).value.requests == 2 * RateOf(rf, StandardBurstScope).value.requests
              && RateOf(rf, EnhancedBurstScope).value.per == RateOf(rf, StandardBurstScope).value.per
              && RateOf(rf, EnhancedSustainedScope).value.requests == 2 * RateOf(rf, StandardSustainedScope).value.requests
              && RateOf(rf, EnhancedSustainedScope).value.per == RateOf(rf, StandardSustainedScope).value.per
  {
  }

  /** With nothing configured, throttling is off: no classes and no scope limited. */
  lemma DefaultsDisableThrottling()
    ensures var rf := RestFrameworkSettings(NoEnvironment);
            && rf.throttleClasses == None
            && forall scope :: RateOf(rf, scope) == None
  {
  }

  /** Whatever the environment, the exempt scope is never limited. */
  lemma ExemptNeverLimited(env: Environment)
    ensures RateOf(RestFrameworkSettings(env), ExemptScope) == None
  {
  }

  /** Nulling the rates twice is nulling them once. */
  lemma NullRatesIdempotent(rates: map<string, Option<Rate>>)
    ensures NullRates(NullRates(rates)) == NullRates(rates)
  {
  }
}
