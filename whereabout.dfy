/**
 * The standalone `whereabout(provider = 0)` dispatcher.
 *
 * A provider above 1 is refused with a rejected promise; provider 0 calls
 * IPAPI and every other provider up to 1 (negative ones included) calls
 * FreeGeoIp. The lookups are asynchronous, so calling one never throws and
 * the fallback in the `catch` block never runs: the value returned is always
 * the selected provider's promise.
 */
module Whereabout {
  import opened Wrappers
  import opened Geolocate

  /** The provider `whereabout` dispatches on: the argument, or 0 when omitted. */
  function ProviderOf(provider: Option<int>): (p: int)
    ensures provider.None? ==> p == 0
    ensures provider.Some? ==> p == provider.value
  {
    provider.GetOr(0)
  }

  /** The promise returned by `whereabout(provider)`, settled. */
  function Whereabout(provider: Option<int>, lookups: Lookups): (r: Result<Response>)
    ensures ProviderOf(provider) > 1 ==> r == Err(ServiceNotAvailable)
    ensures ProviderOf(provider) == 0 ==> r == Answer(lookups, IpApi)
    ensures 0 != ProviderOf(provider) <= 1 ==> r == Answer(lookups, FreeGeoIp)
  {
    var p := ProviderOf(provider);
    if p > 1 then
      Err(ServiceNotAvailable)
    else if p == 0 then
      Answer(lookups, IpApi)
    else
      Answer(lookups, FreeGeoIp)
  }

  /** Omitting the provider is the same as asking for IPAPI. */
  lemma OmittedProviderIsIpApi(lookups: Lookups)
    ensures Whereabout(None, lookups) == Whereabout(Some(0), lookups) == Answer(lookups, IpApi)
  {
  }

  /** An unknown provider is refused, and the refusal does not depend on either service. */
  lemma UnknownProviderCallsNone(provider: Option<int>, lookups: Lookups, other: Lookups)
    requires ProviderOf(provider) > 1
    ensures Whereabout(provider, lookups) == Whereabout(provider, other) == Err(ServiceNotAvailable)
  {
  }

  /**
   * Only the selected service is consulted: two runs in which that service
   * settles alike give the same promise, whatever the other service does. In
   * particular the next provider's answer never replaces the selected one's.
   */
  lemma OnlySelectedProviderMatters(provider: Option<int>, lookups: Lookups, other: Lookups)
    requires ProviderOf(provider) == 0 ==> lookups.ipApi == other.ipApi
    requires 0 != ProviderOf(provider) <= 1 ==> lookups.freeGeoIp == other.freeGeoIp
    ensures Whereabout(provider, lookups) == Whereabout(provider, other)
  {
  }

  /** A fulfilled response is text exactly when provider 0 was asked, and a record otherwise. */
  lemma ResponseShape(provider: Option<int>, lookups: Lookups)
    requires Whereabout(provider, lookups).Ok?
    ensures ProviderOf(provider) <= 1
    ensures Whereabout(provider, lookups).value.Text? <==> ProviderOf(provider) == 0
  {
  }
}
