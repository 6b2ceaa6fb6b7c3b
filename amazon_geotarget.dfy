/**
 * The `AmazonGeotargetService` class: choosing an Amazon storefront for the
 * visitor from a geolocation answer.
 *
 * The service holds one immutable setting, its default storefront. The
 * static `whereabout` picks a geolocation provider; `amazonAffiliateURL`
 * maps a country code to a storefront through the `geo-amazon` table and
 * distrusts any answer that does not mention "amazon"; `amazonGeotarget`
 * asks `whereabout` for the visitor's location, extracts a country code and
 * falls back to the default storefront whenever there is none.
 *
 * The `geo-amazon` table is a foreign library, passed in as `store`: an
 * arbitrary total function whose `Err` stands for a throw.
 */
module AmazonGeotarget {
  import opened Wrappers
  import opened Geolocate
  import Standalone = Whereabout

  /** The storefront used when the service is built without a (truthy) default. */
  const BuiltInStore := "www.amazon.com"

  /** The text IPAPI answers with when it has no country for the address. */
  const NoDataSentinel := "Undefined"

  /** The word a trusted storefront URL must contain. */
  const Brand := "amazon"

  /** The country code `amazonAffiliateURL` looks up when called without one. */
  const FallbackCountry := "US"

  /** `sub` occurs in `s` starting at index `i`. */
  predicate OccursAt(s: string, sub: string, i: int)
  {
    0 <= i && i + |sub| <= |s| && s[i..i + |sub|] == sub
  }

  /** JavaScript's `s.includes(sub)`. */
  predicate Includes(s: string, sub: string)
  {
    exists i | 0 <= i <= |s| :: OccursAt(s, sub, i)
  }

  /** JavaScript truthiness of a value that is `undefined` or a string. */
  predicate Truthy(v: Option<string>)
  {
    v.Some? && v.value != ""
  }

  /**
   * The argument of the static `whereabout`: omitted, an options object
   * `{provider, ip}`, or a bare number (as its own fallback and the tests
   * pass it).
   */
  datatype WhereaboutArg = NoArg | Options(provider: Option<int>, ip: Option<string>) | Bare(n: int)

  /**
   * The provider that the destructuring `{ provider = 0, ip } = { provider: 0 }`
   * yields: the options' provider when given, and 0 otherwise. A number has
   * no `provider` property, so a bare number always yields 0.
   */
  function ProviderOf(arg: WhereaboutArg): (p: int)
    ensures arg.Options? && arg.provider.Some? ==> p == arg.provider.value
    ensures !(arg.Options? && arg.provider.Some?) ==> p == 0
  {
    match arg
    case Options(provider, _) => provider.GetOr(0)
    case _ => 0
  }

  /**
   * The country code read off a geolocation response: a record gives its
   * `country_code` when that is truthy, and text gives itself unless it is
   * the no-data sentinel.
   */
  function ResponseCountryCode(response: Response): (code: Option<string>)
    ensures code.None? <==>
      (response.Record? && !Truthy(response.record.countryCode)) || response == Text(NoDataSentinel)
    ensures code.Some? && response.Record? ==> code == response.record.countryCode
    ensures code.Some? && response.Text? ==> code.value == response.text
  {
    match response
    case Record(record) => if Truthy(record.countryCode) then record.countryCode else None
    case Text(text) => if text != NoDataSentinel then Some(text) else None
  }

  class AmazonGeotargetService {
    /** The storefront every failure path falls back to; fixed at construction. */
    const defaultStore: string

    /** The default storefront is never empty. */
    predicate Valid()
    {
      defaultStore != ""
    }

    /** `new AmazonGeotargetService(defaultStore)`: a falsy argument selects the built-in store. */
    constructor (defaultStore: Option<string>)
      ensures Valid()
      ensures Truthy(defaultStore) ==> this.defaultStore == defaultStore.value
      ensures !Truthy(defaultStore) ==> this.defaultStore == BuiltInStore
    {
      this.defaultStore := if Truthy(defaultStore) then defaultStore.value else BuiltInStore;
    }

    /**
     * The promise returned by the static `whereabout(arg)`, settled. A
     * provider above 1 is refused; provider 0 calls IPAPI; any other
     * provider up to 1 calls FreeGeoIp. The address is handed to the lookup,
     * which ignores it.
     */
    static function Whereabout(arg: WhereaboutArg, lookups: Lookups): (r: Result<Response>)
      ensures ProviderOf(arg) > 1 ==> r == Err(ServiceNotAvailable)
      ensures ProviderOf(arg) == 0 ==> r == Answer(lookups, IpApi)
      ensures 0 != ProviderOf(arg) <= 1 ==> r == Answer(lookups, FreeGeoIp)
    {
      var provider := ProviderOf(arg);
      if provider > 1 then
        Err(ServiceNotAvailable)
      else if provider == 0 then
        Answer(lookups, IpApi)
      else
        Answer(lookups, FreeGeoIp)
    }

    /**
     * `amazonAffiliateURL(countryCode = 'US')`: the storefront the mapping
     * gives for the code when it mentions "amazon", and the default store
     * when the mapping throws or gives anything else.
     */
    function AmazonAffiliateUrl(countryCode: Option<string>, store: string -> Result<string>): (r: string)
      ensures r == defaultStore || Includes(r, Brand)
      ensures r != defaultStore ==> store(countryCode.GetOr(FallbackCountry)) == Ok(r)
      ensures store(countryCode.GetOr(FallbackCountry)).Ok? &&
              Includes(store(countryCode.GetOr(FallbackCountry)).value, Brand) ==>
              r == store(countryCode.GetOr(FallbackCountry)).value
    {
      match store(countryCode.GetOr(FallbackCountry))
      case Err(_) => defaultStore
      case Ok(url) => if Includes(url, Brand) then url else defaultStore
    }

    /**
     * The part of `amazonGeotarget` after the lookup has settled: extract a
     * country code and, when it is truthy, map it to a storefront.
     */
    function Storefront(response: Response, store: string -> Result<string>): (r: string)
      ensures r == defaultStore || Includes(r, Brand)
      ensures !Truthy(ResponseCountryCode(response)) ==> r == defaultStore
      ensures r != defaultStore ==>
        Truthy(ResponseCountryCode(response)) && store(ResponseCountryCode(response).value) == Ok(r)
    {
      var countryCode := ResponseCountryCode(response);
      if !Truthy(countryCode) then defaultStore else AmazonAffiliateUrl(countryCode, store)
    }

    /**
     * `amazonGeotarget(ip)`: ask `whereabout({ ip })`, read a rejection as
     * the default store's own text, and resolve that response to a storefront.
     */
    function AmazonGeotarget(ip: Option<string>, lookups: Lookups, store: string -> Result<string>): (r: string)
      ensures r == defaultStore || Includes(r, Brand)
      ensures r != defaultStore ==> store(lookups.ipApi.GetOr(defaultStore)) == Ok(r)
      ensures lookups.ipApi.Ok? && lookups.ipApi.value != "" && lookups.ipApi.value != NoDataSentinel ==>
              r == AmazonAffiliateUrl(Some(lookups.ipApi.value), store)
      ensures lookups.ipApi.GetOr(defaultStore) in {"", NoDataSentinel} ==> r == defaultStore
    {
      var response := Whereabout(Options(None, ip), lookups).GetOr(Text(defaultStore));
      Storefront(response, store)
    }

    /** Calling `amazonAffiliateURL()` without a code looks up "US". */
    lemma AffiliateUrlDefaultsToUS(store: string -> Result<string>)
      ensures AmazonAffiliateUrl(None, store) == AmazonAffiliateUrl(Some(FallbackCountry), store)
    {
    }

    /** A mapping that throws yields the default store. */
    lemma AffiliateUrlOnMappingFailure(countryCode: Option<string>, store: string -> Result<string>)
      requires store(countryCode.GetOr(FallbackCountry)).Err?
      ensures AmazonAffiliateUrl(countryCode, store) == defaultStore
    {
    }

    /** A mapped value that does not mention "amazon" is replaced by the default store. */
    lemma AffiliateUrlRejectsForeignUrl(countryCode: Option<string>, store: string -> Result<string>)
      requires store(countryCode.GetOr(FallbackCountry)).Ok?
      requires !Includes(store(countryCode.GetOr(FallbackCountry)).value, Brand)
      ensures AmazonAffiliateUrl(countryCode, store) == defaultStore
    {
    }

    /**
     * A response without a truthy country code yields the default store
     * whatever the mapping would answer: the result does not depend on the mapping.
     */
    lemma NoCodeSkipsMapping(response: Response, store: string -> Result<string>, other: string -> Result<string>)
      requires !Truthy(ResponseCountryCode(response))
      ensures Storefront(response, store) == Storefront(response, other) == defaultStore
    {
    }

    /** A truthy `country_code` is what the mapping is asked about. */
    lemma RecordCodeIsMapped(record: GeoRecord, store: string -> Result<string>)
      requires Truthy(record.countryCode)
      ensures Storefront(Record(record), store) == AmazonAffiliateUrl(record.countryCode, store)
    {
    }

    /** Any non-empty text other than the sentinel is what the mapping is asked about. */
    lemma TextCodeIsMapped(text: string, store: string -> Result<string>)
      requires text != NoDataSentinel && text != ""
      ensures Storefront(Text(text), store) == AmazonAffiliateUrl(Some(text), store)
    {
    }

    /** IPAPI's "Undefined" yields the default store whatever the mapping would answer. */
    lemma UndefinedGivesDefault(ip: Option<string>, lookups: Lookups, store: string -> Result<string>)
      requires lookups.ipApi == Ok(NoDataSentinel)
      ensures AmazonGeotarget(ip, lookups, store) == defaultStore
    {
    }

    /**
     * `amazonGeotarget` passes no provider, so it always asks IPAPI: what
     * FreeGeoIp would answer, and the address, never affect the result.
     */
    lemma GeotargetAsksOnlyIpApi(ip: Option<string>, lookups: Lookups, ip': Option<string>, other: Lookups,
                                 store: string -> Result<string>)
      requires lookups.ipApi == other.ipApi
      ensures AmazonGeotarget(ip, lookups, store) == AmazonGeotarget(ip', other, store)
    {
    }

    /**
     * When the lookup rejects, the default store's text takes the place of
     * the response and is looked up in the mapping as if it were a country
     * code (unless it happens to be the sentinel).
     */
    lemma RejectionLooksUpDefaultStore(ip: Option<string>, lookups: Lookups, store: string -> Result<string>)
      requires Valid()
      requires lookups.ipApi.Err?
      requires defaultStore != NoDataSentinel
      ensures AmazonGeotarget(ip, lookups, store) == AmazonAffiliateUrl(Some(defaultStore), store)
    {
    }

    /** A valid service never resolves to the empty string. */
    lemma GeotargetNeverEmpty(ip: Option<string>, lookups: Lookups, store: string -> Result<string>)
      requires Valid()
      ensures AmazonGeotarget(ip, lookups, store) != ""
    {
    }

    /** With the built-in default, every outcome is a storefront that mentions "amazon". */
    lemma BuiltInDefaultAlwaysAmazon(ip: Option<string>, lookups: Lookups, store: string -> Result<string>)
      requires defaultStore == BuiltInStore
      ensures Includes(AmazonGeotarget(ip, lookups, store), Brand)
    {
      BuiltInStoreIsAmazon();
    }

    /**
     * Even when no location is available, the result need not be the default
     * store: a service configured with "www.amazon.co.uk" whose lookup
     * rejects resolves to whatever the mapping gives for "www.amazon.co.uk".
     */
    lemma RejectionCanYieldMappedStore(ip: Option<string>, lookups: Lookups)
      requires defaultStore == "www.amazon.co.uk"
      requires lookups.ipApi.Err?
      ensures AmazonGeotarget(ip, lookups, _ => Ok("www.amazon.de")) == "www.amazon.de" != defaultStore
    {
      assert OccursAt("www.amazon.de", Brand, 4);
    }
  }

  /** The built-in default store passes the "amazon" sanity check itself. */
  lemma BuiltInStoreIsAmazon()
    ensures Includes(BuiltInStore, Brand)
  {
    assert OccursAt(BuiltInStore, Brand, 4);
  }

  /**
   * The standalone `whereabout(provider)` behaves like the static
   * `whereabout({ provider })`: the two dispatchers agree on every provider,
   * including an omitted one.
   */
  lemma StandaloneMatchesStatic(provider: Option<int>, ip: Option<string>, lookups: Lookups)
    ensures Standalone.Whereabout(provider, lookups)
         == AmazonGeotargetService.Whereabout(Options(provider, ip), lookups)
  {
  }

  /** The static `whereabout` called without an argument asks IPAPI. */
  lemma StaticOmittedArgIsIpApi(lookups: Lookups)
    ensures AmazonGeotargetService.Whereabout(NoArg, lookups) == Answer(lookups, IpApi)
  {
  }

  /**
   * A bare number is not an options object, so the static `whereabout(n)`
   * asks IPAPI for every `n`, including 1 and 2.
   */
  lemma StaticBareNumberIsIpApi(n: int, lookups: Lookups)
    ensures AmazonGeotargetService.Whereabout(Bare(n), lookups) == Answer(lookups, IpApi)
  {
  }

  /** An unknown provider is refused, and the refusal does not depend on either service. */
  lemma StaticUnknownProviderCallsNone(arg: WhereaboutArg, lookups: Lookups, other: Lookups)
    requires ProviderOf(arg) > 1
    ensures AmazonGeotargetService.Whereabout(arg, lookups)
         == AmazonGeotargetService.Whereabout(arg, other) == Err(ServiceNotAvailable)
  {
  }

  /** Only the selected service is consulted; the fallback never substitutes the next one's answer. */
  lemma StaticOnlySelectedProviderMatters(arg: WhereaboutArg, lookups: Lookups, other: Lookups)
    requires ProviderOf(arg) == 0 ==> lookups.ipApi == other.ipApi
    requires 0 != ProviderOf(arg) <= 1 ==> lookups.freeGeoIp == other.freeGeoIp
    ensures AmazonGeotargetService.Whereabout(arg, lookups) == AmazonGeotargetService.Whereabout(arg, other)
  {
  }
}
