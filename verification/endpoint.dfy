/** The dispatch and aggregation layer of the lending endpoint:
    listing every provider, and routing a rates or account query to the
    one backend a caller names.

    Every operation returns a `Traced` value: its Go result together with
    the identifiers of the backends it invoked, in call order. The trace
    is what lets the contracts say which backends were consulted. */
module Endpoint {
  import opened Wrappers
  import opened BlockAtlas
  import opened LendingApi

  datatype Traced<T> = Traced(value: T, calls: seq<string>)

  /** The text of the error for an identifier missing from the registry. */
  function UnknownProvider(id: string): string {
    "Unknown provider " + id
  }

  /** Distinct identifiers give distinct unknown-provider errors: the
      error names the provider the caller asked for. */
  lemma UnknownProviderInjective(a: string, b: string)
    ensures UnknownProvider(a) == UnknownProvider(b) <==> a == b
  {
    var n := |"Unknown provider "|;
    if UnknownProvider(a) == UnknownProvider(b) {
      assert a == UnknownProvider(a)[n..];
      assert b == UnknownProvider(b)[n..];
    }
  }

  // ---------------------------------------------------------------------
  // Listing

  ghost predicate Distinct(s: seq<string>) {
    forall i, j :: 0 <= i < j < |s| ==> s[i] != s[j]
  }

  ghost function Elements(s: seq<string>): set<string> {
    set k | k in s
  }

  /** `order` is one way Go's `range` may visit the registry: every
      registered identifier exactly once, and nothing else. */
  ghost predicate IsIterationOrder<Rate>(apis: Registry<Rate>, order: seq<string>) {
    && Distinct(order)
    && forall k :: k in apis <==> k in order
  }

  /** Identifiers, among `keys`, of registered backends that describe
      themselves successfully. */
  ghost function Succeeding<Rate>(apis: Registry<Rate>, keys: set<string>): set<string> {
    set k | k in keys && k in apis && apis[k].providerInfo.Success?
  }

  /** Identifiers, among `keys`, of registered backends whose descriptor
      is exactly `p`. */
  ghost function Providing<Rate>(apis: Registry<Rate>, keys: set<string>, p: LendingProvider): set<string> {
    set k | k in keys && k in apis && apis[k].providerInfo == Success(p)
  }

  lemma SubsetSize(a: set<string>, b: set<string>)
    requires a <= b
    ensures |a| <= |b|
  {
    assert b == a + (b - a);
  }

  /** The loop of the listing: visit the backends in `order`, ask each for
      its descriptor, keep the successes, skip the failures. */
  function Collect<Rate>(apis: Registry<Rate>, order: seq<string>): (r: seq<LendingProvider>)
    requires forall i :: 0 <= i < |order| ==> order[i] in apis
    ensures |r| <= |order|
    ensures forall p :: p in r ==> exists i :: 0 <= i < |order| && apis[order[i]].providerInfo == Success(p)
    ensures forall i :: 0 <= i < |order| && apis[order[i]].providerInfo.Success? ==> apis[order[i]].providerInfo.value in r
    decreases |order|
  {
    if order == [] then []
    else
      var rest := Collect(apis, order[1..]);
      match apis[order[0]].providerInfo
      case Success(prov) => [prov] + rest
      case Failure(_) => rest
  }

  /** Each descriptor occurs in the collected list once per backend in
      `order` that returns it. */
  lemma {:induction false} CollectCount<Rate>(apis: Registry<Rate>, order: seq<string>, p: LendingProvider)
    requires forall i :: 0 <= i < |order| ==> order[i] in apis
    requires Distinct(order)
    ensures multiset(Collect(apis, order))[p] == |Providing(apis, Elements(order), p)|
    decreases |order|
  {
    if order == [] {
      assert Providing(apis, Elements(order), p) == {};
    } else {
      var k, rest := order[0], order[1..];
      CollectCount(apis, rest, p);
      ProvidingStep(apis, order, p);
      var tail := Collect(apis, rest);
      match apis[k].providerInfo
      case Success(q) =>
        assert Collect(apis, order) == [q] + tail;
        assert multiset([q] + tail) == multiset{q} + multiset(tail);
      case Failure(_) =>
    }
  }

  /** Peeling the first identifier off `order` peels it off the set of
      backends that return `p`. */
  lemma ProvidingStep<Rate>(apis: Registry<Rate>, order: seq<string>, p: LendingProvider)
    requires |order| > 0 && order[0] in apis
    requires Distinct(order)
    ensures |Providing(apis, Elements(order), p)|
         == |Providing(apis, Elements(order[1..]), p)| + (if apis[order[0]].providerInfo == Success(p) then 1 else 0)
  {
    var k, rest := order[0], order[1..];
    assert Elements(order) == {k} + Elements(rest);
    assert k !in Elements(rest);
    if apis[k].providerInfo == Success(p) {
      assert Providing(apis, Elements(order), p) == {k} + Providing(apis, Elements(rest), p);
    } else {
      assert Providing(apis, Elements(order), p) == Providing(apis, Elements(rest), p);
    }
  }

  /** The collected list has one entry per succeeding backend in `order`. */
  lemma {:induction false} CollectLength<Rate>(apis: Registry<Rate>, order: seq<string>)
    requires forall i :: 0 <= i < |order| ==> order[i] in apis
    requires Distinct(order)
    ensures |Collect(apis, order)| == |Succeeding(apis, Elements(order))|
    decreases |order|
  {
    if order == [] {
      assert Succeeding(apis, Elements(order)) == {};
    } else {
      var k, rest := order[0], order[1..];
      CollectLength(apis, rest);
      assert Elements(order) == {k} + Elements(rest);
      assert k !in Elements(rest);
      if apis[k].providerInfo.Success? {
        assert Succeeding(apis, Elements(order)) == {k} + Succeeding(apis, Elements(rest));
      } else {
        assert Succeeding(apis, Elements(order)) == Succeeding(apis, Elements(rest));
      }
    }
  }

  /** getProviders. The listing never fails; it consults every backend
      once, in iteration order; and each descriptor appears exactly as
      often as registered backends return it successfully, so backends
      that fail contribute nothing and the order of the registry does
      not matter. */
  function GetProviders<Rate>(apis: Registry<Rate>, order: seq<string>): (r: Traced<Result<seq<LendingProvider>, string>>)
    requires IsIterationOrder(apis, order)
    ensures r.value.Success?
    ensures r.calls == order
    ensures forall p :: multiset(r.value.value)[p] == |Providing(apis, apis.Keys, p)|
    ensures |r.value.value| == |Succeeding(apis, apis.Keys)| <= |apis|
  {
    assert Elements(order) == apis.Keys;
    forall p ensures multiset(Collect(apis, order))[p] == |Providing(apis, apis.Keys, p)| {
      CollectCount(apis, order, p);
    }
    CollectLength(apis, order);
    SubsetSize(Succeeding(apis, apis.Keys), apis.Keys);
    Traced(Success(Collect(apis, order)), order)
  }

  // ---------------------------------------------------------------------
  // Single-provider queries

  /** getRates. An unregistered identifier is refused with the
      unknown-provider error before any backend is invoked; a registered
      one is handed to its own backend alone, with the request's assets,
      and the backend's outcome comes back untouched. */
  function GetRates<Rate>(provider: string, req: RatesRequest, apis: Registry<Rate>): (r: Traced<Result<seq<Rate>, string>>)
    ensures provider !in apis ==> r.value == Failure(UnknownProvider(provider)) && r.calls == []
    ensures provider in apis ==> r.value == apis[provider].rates(req.assets) && r.calls == [provider]
  {
    if provider !in apis then
      Traced(Failure(UnknownProvider(provider)), [])
    else
      Traced(apis[provider].rates(req.assets), [provider])
  }

  /** getAccounts: the same lookup, delegating the whole request to the
      named backend's account query. */
  function GetAccounts<Rate>(provider: string, req: AccountRequest, apis: Registry<Rate>): (r: Traced<Result<seq<AccountLendingContracts>, string>>)
    ensures provider !in apis ==> r.value == Failure(UnknownProvider(provider)) && r.calls == []
    ensures provider in apis ==> r.value == apis[provider].accounts(req) && r.calls == [provider]
  {
    if provider !in apis then
      Traced(Failure(UnknownProvider(provider)), [])
    else
      Traced(apis[provider].accounts(req), [provider])
  }
}
