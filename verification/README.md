# Lending provider dispatch — a Dafny model

This project models the dispatch and aggregation layer of the blockatlas
lending endpoint. A registry maps provider identifiers to lending backends
(the `LendingAPI` interface). Three operations sit on top of it:

- `getProviders` asks every registered backend for its provider descriptor.
  It keeps the descriptors that come back without error, silently drops the
  failures, and never fails itself.
- `getRates` looks the named provider up. An unknown identifier gives the
  error `Unknown provider <id>`. A known one gets the request's asset list,
  and the backend's answer is returned unchanged.
- `getAccounts` follows the same lookup and delegates the whole account
  request to the backend's account query.

Files:

- `wrappers.dfy` (`Wrappers`): `Option` and `Result`. `Result` stands for
  Go's `(value, error)` return; a `Failure` carries the text of the error.
- `blockatlas.dfy` (`BlockAtlas`): the plain-data types of
  `pkg/blockatlas/lending.go`. Decimal quantities stay strings. `APY` is an
  uninterpreted 64-bit pattern. `YieldPeriod` and `YieldFrequency` are int64.
  `ProviderType` wraps any string, as Go's `type ProviderType string` does;
  `lending` and `staking` are its two named constants.
- `backend.dfy` (`LendingApi`): a backend as a record of canned outcomes.
  It holds the result of `GetProviderInfo`, plus the functions computed by
  `GetCurrentLendingRates` and `GetAccountLendingContracts`. The registry is
  a `map<string, Backend<Rate>>`. The rate record type is the type
  parameter `Rate`.
- `endpoint.dfy` (`Endpoint`): the three operations. Each returns a
  `Traced` value: the Go result, plus the identifiers of the backends it
  invoked, in call order.
- `endpoint_properties.dfy` (`EndpointProperties`): lemmas that relate
  several calls, registries or iteration orders.

Go does not specify the order in which `range` visits a map. The listing
therefore takes that order as a parameter, `order`. `IsIterationOrder`
requires it to name every registered identifier exactly once. Every listing
property is proved for all such orders. Properties of the listed contents
are stated through multiset counts, so they do not depend on the order.

The Go code returns plain `error` values; the model keeps their text. The
listing is not sorted; it comes out in iteration order. Request payloads
are slices.

## Model

| member | source | states |
|---|---|---|
| Endpoint.GetProviders | api/endpoint/lending.go:88-98 | The listing always succeeds, including when the registry is empty or every backend fails. Every registered backend is invoked exactly once, in iteration order. Each descriptor occurs exactly as many times as registered backends return it successfully. The length equals the number of succeeding backends, which is at most the registry size. |
| Endpoint.Collect | api/endpoint/lending.go:89-96 | The listing loop contributes at most one entry per visited backend. Every entry is the successful descriptor of some visited backend. Every visited backend that succeeds contributes its descriptor. |
| Endpoint.CollectCount | api/endpoint/lending.go:89-96 | When the visit order repeats no identifier, each descriptor's multiplicity in the result equals the number of visited backends that return it successfully. |
| Endpoint.CollectLength | api/endpoint/lending.go:89-96 | When the visit order repeats no identifier, the result length equals the number of visited backends whose descriptor call succeeds. |
| Endpoint.GetRates | api/endpoint/lending.go:101-107 | An unregistered identifier yields the error `Unknown provider <id>` and invokes no backend. A registered identifier invokes only that backend, with exactly the request's asset list, and returns the backend's result or error unchanged. |
| Endpoint.GetAccounts | api/endpoint/lending.go:110-116 | An unregistered identifier yields the error `Unknown provider <id>` and invokes no backend. A registered identifier invokes only that backend, with the unmodified account request, and returns its outcome unchanged. |
| Endpoint.UnknownProviderInjective | api/endpoint/lending.go:102-105 | Two unknown-provider errors are equal exactly when they name the same identifier, so the error identifies the provider that was asked for. |
| EndpointProperties.ListedIffSucceeded | api/endpoint/lending.go:90-95 | A descriptor is listed if and only if some registered backend returns it without error. |
| EndpointProperties.ListingEmptyWhenAllFail | api/endpoint/lending.go:89-97 | With an empty registry, or one where every backend fails, the listing is a success holding the empty list. |
| EndpointProperties.ListingOrderIrrelevant | api/endpoint/lending.go:90-96 | Any two iteration orders list the same descriptors with the same multiplicities. Only the order of the list can differ. |
| EndpointProperties.ListingReadsOnlyInfo | api/endpoint/lending.go:90-91 | Two registries with the same identifiers and the same descriptor outcomes give the same listing, whatever their rate and account queries do. |
| EndpointProperties.CollectReadsOnlyInfo | api/endpoint/lending.go:90-96 | Along any visit order, the listing loop's result depends only on the descriptor outcomes of the visited backends. |
| EndpointProperties.CollectIdsDistinct | api/endpoint/lending.go:90-95 | In a registry whose backends describe themselves under their own key, every collected descriptor's identifier is a visited key. No two collected descriptors share an identifier. |
| EndpointProperties.ListedIdsDistinct | api/endpoint/lending.go:88-98 | In such a registry, the listing never shows two providers with the same identifier. |
| EndpointProperties.ListedProvidersAreQueryable | api/endpoint/lending.go:88-116 | In such a registry, every listed provider's identifier is registered with that very descriptor. A rates or account query under that identifier reaches that backend and only that one. |
| EndpointProperties.OneOfTwoListed | api/endpoint/lending.go:88-98 | Take one succeeding backend "a" and one failing backend "b". Listing them in either order gives exactly a's descriptor. |
| EndpointProperties.RatesReadOnlyNamedBackend | api/endpoint/lending.go:101-107 | Two registries that agree on the named entry, or both lack it, give the same rates answer and call trace, whatever else they hold. |
| EndpointProperties.AccountsReadOnlyNamedBackend | api/endpoint/lending.go:110-116 | Two registries that agree on the named entry, or both lack it, give the same account answer and call trace, whatever else they hold. |
| EndpointProperties.RatesFailureCases | api/endpoint/lending.go:101-107 | A rates query fails exactly when the identifier is unregistered or the backend fails. A backend failure is surfaced with the backend's own error, not wrapped. |
| EndpointProperties.AccountsFailureCases | api/endpoint/lending.go:110-116 | An account query fails exactly when the identifier is unregistered or the backend fails. A backend failure is surfaced with the backend's own error, not wrapped. |
| EndpointProperties.QueriesResolveAlike | api/endpoint/lending.go:101-116 | Rates and account queries resolve an identifier identically. They invoke the same backend, or they both refuse with the same error. |
| EndpointProperties.FailedListingStillQueryable | api/endpoint/lending.go:88-107 | A backend whose descriptor call fails is still consulted by the listing. It stays reachable by name, and a rates query goes straight to it. |

## Left out

- `ServeProviders`, `ServeRates` and `ServeAccount` (api/endpoint/lending.go:18-85) are left out. They are HTTP glue: reading the path parameter, `BindJSON`, choosing a status code and wrapping the result in `DocsResponse`.
- JSON encoding is left out, including the struct tags and the `omitempty` behaviour of pkg/blockatlas/lending.go. It is done by Go's `encoding/json`, which is not part of this model.
- `APY` is a float64. It is kept as an uninterpreted 64-bit pattern because nothing in the core reads it.
- The concrete backends and their network calls are left out. Each backend is a record of canned outcomes, so it answers a given input the same way every time. The listing can call one Go backend instance more than once when it is stored under several keys. Nothing is lost, because the model may give each key its own record.
- The `LendingAPI` interface, `RatesRequest` and `LendingAssetRates` are declared in Go files that are not part of this model. The first two are modelled from how they are used here, as `LendingApi.Backend` and `BlockAtlas.RatesRequest`. `LendingAssetRates` is the type parameter `Rate`.
- Go strings are byte strings, while Dafny's `string` is a sequence of Unicode scalar values. An identifier or field that is not valid UTF-8 cannot be represented. The lookup and the error text only use equality and concatenation, which behave the same on valid UTF-8.
- Go's randomised map iteration is a parameter, not a model. The listing is proved for every order that visits each key exactly once.
- Go returns a `(value, error)` pair, and the model represents it as `Result`. A backend that returns a value together with a non-nil error is represented by its error alone. The HTTP handlers discard the value in that case.
- Go distinguishes a nil slice from an empty one. The model keeps this only implicitly. The listing's non-nil empty slice is `Success([])`. The nil slice of the unknown-provider path is a `Failure`, which carries no value.
- A nil interface value stored in the registry would make the Go code panic. The model assumes every registered value is a backend.
- The registry convention that a descriptor's `ID` equals its registry key is not enforced by the code. It appears only as the `WellKeyed` assumption of the lemmas that need it.
