# amazon-geotarget, modelled in Dafny

`amazon-geotarget` picks the Amazon storefront for a web visitor. It asks a
geolocation service where the visitor is, reads a country code from the
answer, maps that code to a regional storefront through the `geo-amazon`
table, and falls back to a configured default storefront whenever any step
gives nothing usable.

The model covers the `AmazonGeotargetService` class (`src/amazonGeotarget.js`)
and the standalone `whereabout` dispatcher (`src/whereabout.js`):

- `wrappers.dfy`: `Option` (a value or JavaScript's `undefined`) and `Result`
  (a settled promise: fulfilled, or rejected with an error message).
- `geolocate.dfy`: the two lookups as values. `Lookups` says how the IPAPI
  promise (text) and the FreeGeoIp promise (a record with an optional
  `country_code`) settle in one run. `Answer` is the promise obtained by
  calling one of them.
- `whereabout.dfy`: `whereabout(provider = 0)` from `src/whereabout.js`.
- `amazon_geotarget.dfy`: the class. Its one field, `defaultStore`, is a
  `const` set by the constructor, so nothing can change it afterwards.
  `amazonAffiliateURL`, `amazonGeotarget` and the static `whereabout` are
  functions. They take the `geo-amazon` mapping as a parameter `store`: an
  arbitrary function from a code to `Result<string>`, where `Err` means the
  mapping threw.

The headline theorem is in the `ensures` of `AmazonGeotarget`. Whatever the
services and the mapping do, the result is either `defaultStore` or a string
that contains `"amazon"`.

Behaviour of the code worth knowing:

- Neither dispatcher falls back from one provider to the other. The lookups
  are `async` functions, so calling one never throws. A failed lookup shows
  up as a rejected promise, and the `catch` blocks never run. Even if one did
  run, the result of its recursive call is thrown away. The lemmas
  `OnlySelectedProviderMatters` and `StaticOnlySelectedProviderMatters`
  state the consequence: only the selected provider's answer matters.
- `amazonGeotarget` calls `whereabout({ ip })` with no provider, so it always
  asks IPAPI (`GeotargetAsksOnlyIpApi`).
- The static `whereabout` destructures an options object. A bare number such
  as `whereabout(2)` therefore selects provider 0, not a rejection
  (`StaticBareNumberIsIpApi`).
- IPAPI's "Undefined" is a fulfilled text like any other answer;
  `amazonGeotarget` reads it as "no code".
- Neither lookup looks at the HTTP status; an error reply is read like any
  other body.
- When the lookup rejects, the result is not always the default store.
  `defaultStore` itself is used as the response text and looked up in the
  mapping (`RejectionLooksUpDefaultStore`, `RejectionCanYieldMappedStore`).

## Model

| member | source | states |
|---|---|---|
| Geolocate.Answer | src/geolocate.js:1-13 | calling a lookup gives a promise that settles as that service did: text for IPAPI, a record for FreeGeoIp, and the same rejection message |
| Whereabout.ProviderOf | src/whereabout.js:3 | an omitted provider is 0; a given one is used as it is |
| Whereabout.Whereabout | src/whereabout.js:3-20 | a provider above 1 rejects with "Service is not available"; 0 gives IPAPI's promise; any other provider up to 1 gives FreeGeoIp's |
| Whereabout.OmittedProviderIsIpApi | src/whereabout.js:3 | omitting the provider is the same as provider 0, and both call IPAPI |
| Whereabout.UnknownProviderCallsNone | src/whereabout.js:4-6 | a provider above 1 gives the same rejection whatever either service would answer; the result does not depend on either service |
| Whereabout.OnlySelectedProviderMatters | src/whereabout.js:8-19 | the result depends only on the selected service; the fallback never puts the next provider's answer in its place |
| Whereabout.ResponseShape | src/whereabout.js:8-13 | a fulfilled response means the provider was at most 1, and it is text exactly when provider 0 was asked |
| AmazonGeotarget.ProviderOf | src/amazonGeotarget.js:9 | an options object's provider is used when it is given; an omitted argument, a missing provider or a bare number gives 0 |
| AmazonGeotarget.ResponseCountryCode | src/amazonGeotarget.js:41-48 | no code exactly when a record's `country_code` is falsy or the text is "Undefined"; otherwise the code is that field or that text |
| AmazonGeotarget.AmazonGeotargetService.constructor | src/amazonGeotarget.js:5-7 | a truthy argument becomes the default store; a falsy one gives "www.amazon.com"; the default store is never empty and is a `const` |
| AmazonGeotarget.AmazonGeotargetService.Whereabout | src/amazonGeotarget.js:9-26 | a provider above 1 rejects with "Service is not available"; 0 gives IPAPI's promise; any other provider up to 1 gives FreeGeoIp's |
| AmazonGeotarget.AmazonGeotargetService.AmazonAffiliateUrl | src/amazonGeotarget.js:28-36 | the result is the default store or contains "amazon"; any other result is what the mapping gave for the code (or "US"); a mapped value containing "amazon" is returned |
| AmazonGeotarget.AmazonGeotargetService.Storefront | src/amazonGeotarget.js:41-52 | the result is the default store or contains "amazon"; no truthy code gives the default store; any other result is the mapping's answer for the extracted code |
| AmazonGeotarget.AmazonGeotargetService.AmazonGeotarget | src/amazonGeotarget.js:38-53 | the result is always the default store or a string containing "amazon"; a fulfilled IPAPI text other than "" and "Undefined" gives `amazonAffiliateURL` of that text; an IPAPI text of "" or "Undefined", or a rejection when the default store is one of those, gives the default store; any other result is the mapping's answer for IPAPI's text, or for the default store when IPAPI rejected |
| AmazonGeotarget.AmazonGeotargetService.AffiliateUrlDefaultsToUS | src/amazonGeotarget.js:28 | calling without a code is the same as calling with "US" |
| AmazonGeotarget.AmazonGeotargetService.AffiliateUrlOnMappingFailure | src/amazonGeotarget.js:30-34 | when the mapping throws, the result is the default store |
| AmazonGeotarget.AmazonGeotargetService.AffiliateUrlRejectsForeignUrl | src/amazonGeotarget.js:35 | a mapped value without "amazon" is replaced by the default store |
| AmazonGeotarget.AmazonGeotargetService.NoCodeSkipsMapping | src/amazonGeotarget.js:49-51 | without a truthy code (a record whose `country_code` is missing or empty, or the text "" or "Undefined") the result is the default store whatever the mapping would answer; the result does not depend on the mapping |
| AmazonGeotarget.AmazonGeotargetService.RecordCodeIsMapped | src/amazonGeotarget.js:42-52 | a truthy `country_code` is passed to `amazonAffiliateURL` |
| AmazonGeotarget.AmazonGeotargetService.TextCodeIsMapped | src/amazonGeotarget.js:46-52 | any non-empty text other than "Undefined" is passed to `amazonAffiliateURL` |
| AmazonGeotarget.AmazonGeotargetService.UndefinedGivesDefault | src/amazonGeotarget.js:46-51 | IPAPI answering "Undefined" gives the default store |
| AmazonGeotarget.AmazonGeotargetService.GeotargetAsksOnlyIpApi | src/amazonGeotarget.js:39 | what FreeGeoIp would answer, and the address, never change the result |
| AmazonGeotarget.AmazonGeotargetService.RejectionLooksUpDefaultStore | src/amazonGeotarget.js:39-52 | when IPAPI rejects, the default store's text is passed to `amazonAffiliateURL` as the country code |
| AmazonGeotarget.AmazonGeotargetService.GeotargetNeverEmpty | src/amazonGeotarget.js:38-53 | the result is never the empty string |
| AmazonGeotarget.AmazonGeotargetService.BuiltInDefaultAlwaysAmazon | src/amazonGeotarget.js:6 | with the built-in default store, every result contains "amazon" |
| AmazonGeotarget.AmazonGeotargetService.RejectionCanYieldMappedStore | src/amazonGeotarget.js:39-52 | a service with default "www.amazon.co.uk" whose lookup rejects can still resolve to another storefront that the mapping gives |
| AmazonGeotarget.BuiltInStoreIsAmazon | src/amazonGeotarget.js:6 | "www.amazon.com" passes the "amazon" check |
| AmazonGeotarget.StandaloneMatchesStatic | src/whereabout.js:3-20 | the standalone `whereabout(provider)` agrees with the static `whereabout({ provider, ip })` for every provider, omitted included |
| AmazonGeotarget.StaticOmittedArgIsIpApi | src/amazonGeotarget.js:9 | the static `whereabout()` asks IPAPI |
| AmazonGeotarget.StaticBareNumberIsIpApi | src/amazonGeotarget.js:9 | the static `whereabout(n)` with a bare number asks IPAPI for every `n` |
| AmazonGeotarget.StaticUnknownProviderCallsNone | src/amazonGeotarget.js:10-12 | a provider above 1 gives the same rejection whatever either service would answer; the result does not depend on either service |
| AmazonGeotarget.StaticOnlySelectedProviderMatters | src/amazonGeotarget.js:13-25 | the result depends only on the selected service; the fallback never puts the next provider's answer in its place |

## Left out

- The network calls in `src/geolocate.js` and `src/geolocate/geolocate.js` (`fetch`, `response.text()`, `response.json()`) are not modelled as code. How each lookup settles is an input (`Lookups`). The lookups take no address, so the `ip` argument reaches them and has no effect.
- The `geo-amazon` table is a foreign library and is not part of this model. It is the parameter `store`. A mapping that returns a non-string is not modelled; at line 35 of `src/amazonGeotarget.js` that would throw outside the `try`.
- The `catch` blocks of both dispatchers (`src/amazonGeotarget.js:20-23`, `src/whereabout.js:14-17`) are not modelled as code. Calling an `async` lookup never throws, so they cannot run. If one did run, `whereabout` would return `null` instead of a promise, and the static version would recurse into provider 0, since it passes a bare number.
- `async`/`await` and promise scheduling are replaced by settled `Result` values.
- JavaScript values outside the modelled shapes are not modelled: a `null` response (line 43 would throw), a non-string `country_code`, non-integer or non-numeric providers, and non-string default stores.
- The FreeGeoIp record's informational fields (region, city, coordinates, time zone) are not modelled, because the code never reads them.
- Browser-global registration (`src/amazonGeotarget.js:58-62`, `src/whereabout.js:22-25`) and the webpack configuration are packaging, not behaviour.
- Assignment of `service.defaultStore` from outside the class is not modelled. In the source it is a plain writable property (`src/amazonGeotarget.js:6`); the class's own methods never write it, so the model makes it a `const`.
- A call to a service or to the mapping is not modelled as an event. "Not called" is stated as "the result does not depend on it", which is what a pure model can express.
