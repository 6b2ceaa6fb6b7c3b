/**
 * The two remote geolocation lookups, as values.
 *
 * Each lookup is an `async` function that fetches one endpoint and yields
 * either the body's text (IPAPI) or its parsed JSON (FreeGeoIp). Neither
 * takes an address and neither inspects the HTTP status, so in one run each
 * lookup is fully described by how its promise settles: `Lookups` records
 * exactly that, and stands in for the network.
 */
module Geolocate {
  import opened Wrappers

  /** The two services that `whereabout` can call. */
  datatype Provider = IpApi | FreeGeoIp

  /** The JSON record of FreeGeoIp; the core reads only its `country_code`. */
  datatype GeoRecord = GeoRecord(countryCode: Option<string>)

  /** What a lookup's promise is fulfilled with: IPAPI's text or FreeGeoIp's record. */
  datatype Response = Text(text: string) | Record(record: GeoRecord)

  /** How each lookup settles in one run: IPAPI with text, FreeGeoIp with a record. */
  datatype Lookups = Lookups(ipApi: Result<string>, freeGeoIp: Result<GeoRecord>)

  /** The message of the rejection both dispatchers return for an unknown provider. */
  const ServiceNotAvailable := "Service is not available"

  /** The settled promise obtained by calling `provider`'s lookup. */
  function Answer(lookups: Lookups, provider: Provider): (r: Result<Response>)
    ensures provider == IpApi ==> (r.Ok? <==> lookups.ipApi.Ok?)
    ensures provider == FreeGeoIp ==> (r.Ok? <==> lookups.freeGeoIp.Ok?)
    ensures r.Ok? ==> (r.value.Text? <==> provider == IpApi)
    ensures r.Ok? && provider == IpApi ==> r.value.text == lookups.ipApi.value
    ensures r.Ok? && provider == FreeGeoIp ==> r.value.record == lookups.freeGeoIp.value
    ensures r.Err? && provider == IpApi ==> r.message == lookups.ipApi.message
    ensures r.Err? && provider == FreeGeoIp ==> r.message == lookups.freeGeoIp.message
  {
    match provider
    case IpApi =>
      (match lookups.ipApi
       case Ok(text) => Ok(Text(text))
       case Err(m) => Err(m))
    case FreeGeoIp =>
      (match lookups.freeGeoIp
       case Ok(record) => Ok(Record(record))
       case Err(m) => Err(m))
  }
}
