/** Properties of the lending endpoint that relate several calls, several
    registries or several iteration orders. */
module EndpointProperties {
  import opened Wrappers
  import opened BlockAtlas
  import opened LendingApi
  import opened Endpoint

  // ---------------------------------------------------------------------
  // Listing

  /** A descriptor is listed exactly when some registered backend returns
      it successfully. */
  lemma ListedIffSucceeded<Rate>(apis: Registry<Rate>, order: seq<string>, p: LendingProvider)
    requires IsIterationOrder(apis, order)
    ensures p in GetProviders(apis, order).value.value
        <==> exists k :: k in apis && apis[k].providerInfo == Success(p)
  {
  }

  /** With no registered backend, or only failing ones, the listing is
      still a success, and it is empty. */
  lemma ListingEmptyWhenAllFail<Rate>(apis: Registry<Rate>, order: seq<string>)
    requires IsIterationOrder(apis, order)
    requires forall k :: k in apis ==> apis[k].providerInfo.Failure?
    ensures GetProviders(apis, order).value == Success([])
  {
  }

  /** Any two iteration orders list the same descriptors the same number
      of times: only the order of the listing can differ. */
  lemma ListingOrderIrrelevant<Rate>(apis: Registry<Rate>, order1: seq<string>, order2: seq<string>)
    requires IsIterationOrder(apis, order1) && IsIterationOrder(apis, order2)
    ensures multiset(GetProviders(apis, order1).value.value) == multiset(GetProviders(apis, order2).value.value)
  {
  }

  /** The listing reads only the descriptors: registries with the same
      identifiers and the same descriptors list the same thing, whatever
      their rate and account queries do. */
  lemma ListingReadsOnlyInfo<Rate>(apis1: Registry<Rate>, apis2: Registry<Rate>, order: seq<string>)
    requires IsIterationOrder(apis1, order)
    requires apis1.Keys == apis2.Keys
    requires forall k :: k in apis1 ==> apis1[k].providerInfo == apis2[k].providerInfo
    ensures IsIterationOrder(apis2, order)
    ensures GetProviders(apis1, order) == GetProviders(apis2, order)
  {
    CollectReadsOnlyInfo(apis1, apis2, order);
  }

  lemma {:induction false} CollectReadsOnlyInfo<Rate>(apis1: Registry<Rate>, apis2: Registry<Rate>, order: seq<string>)
    requires forall i :: 0 <= i < |order| ==> order[i] in apis1 && order[i] in apis2
    requires forall i :: 0 <= i < |order| ==> apis1[order[i]].providerInfo == apis2[order[i]].providerInfo
    ensures Collect(apis1, order) == Collect(apis2, order)
    decreases |order|
  {
    if order != [] {
      CollectReadsOnlyInfo(apis1, apis2, order[1..]);
    }
  }

  /** Every collected descriptor of a well-keyed registry carries the
      identifier of a backend in `order`, and no two carry the same one. */
  lemma {:induction false} CollectIdsDistinct<Rate>(apis: Registry<Rate>, order: seq<string>)
    requires forall i :: 0 <= i < |order| ==> order[i] in apis
    requires Distinct(order)
    requires WellKeyed(apis)
    ensures forall p :: p in Collect(apis, order) ==> p.id in order
    ensures forall i, j :: 0 <= i < j < |Collect(apis, order)| ==> Collect(apis, order)[i].id != Collect(apis, order)[j].id
    decreases |order|
  {
    if order != [] {
      var rest := order[1..];
      CollectIdsDistinct(apis, rest);
      var tail := Collect(apis, rest);
      assert order[0] !in rest;
      match apis[order[0]].providerInfo
      case Success(q) =>
        assert q.id == order[0];
        assert Collect(apis, order) == [q] + tail;
        assert forall j :: 0 <= j < |tail| ==> tail[j] in tail;
      case Failure(_) =>
    }
  }

  /** In a well-keyed registry the listing never shows two providers
      with the same identifier. */
  lemma ListedIdsDistinct<Rate>(apis: Registry<Rate>, order: seq<string>)
    requires IsIterationOrder(apis, order)
    requires WellKeyed(apis)
    ensures var listed := GetProviders(apis, order).value.value;
      forall i, j :: 0 <= i < j < |listed| ==> listed[i].id != listed[j].id
  {
    CollectIdsDistinct(apis, order);
  }

  /** In a well-keyed registry every listed provider can be queried: a
      rates or account query under its identifier reaches its backend and
      only that one. */
  lemma ListedProvidersAreQueryable<Rate>(apis: Registry<Rate>, order: seq<string>, p: LendingProvider,
                                          rates: RatesRequest, account: AccountRequest)
    requires IsIterationOrder(apis, order)
    requires WellKeyed(apis)
    requires p in GetProviders(apis, order).value.value
    ensures p.id in apis && apis[p.id].providerInfo == Success(p)
    ensures GetRates(p.id, rates, apis).calls == [p.id]
    ensures GetAccounts(p.id, account, apis).calls == [p.id]
  {
  }

  /** A registry of one working backend "a" and one failing backend "b"
      lists exactly the descriptor of "a", in either iteration order. */
  lemma OneOfTwoListed<Rate>(a: Backend<Rate>, b: Backend<Rate>, order: seq<string>)
    requires a.providerInfo.Success? && b.providerInfo.Failure?
    requires order == ["a", "b"] || order == ["b", "a"]
    ensures IsIterationOrder(map["a" := a, "b" := b], order)
    ensures GetProviders(map["a" := a, "b" := b], order).value == Success([a.providerInfo.value])
  {
    var apis := map["a" := a, "b" := b];
    assert apis["a"] == a && apis["b"] == b;
    if order == ["a", "b"] {
      assert Collect(apis, order[1..]) == [];
      assert Collect(apis, order) == [a.providerInfo.value] + [];
    } else {
      assert Collect(apis, order[1..]) == [a.providerInfo.value] + [];
      assert Collect(apis, order) == Collect(apis, order[1..]);
    }
    assert Collect(apis, order) == [a.providerInfo.value];
    assert GetProviders(apis, order).value == Success(Collect(apis, order));
  }

  // ---------------------------------------------------------------------
  // Single-provider queries

  /** A rates query sees nothing of the registry but the named entry:
      registries that agree on it answer alike, and if both lack it they
      answer alike whatever else they hold. */
  lemma RatesReadOnlyNamedBackend<Rate>(provider: string, req: RatesRequest, apis1: Registry<Rate>, apis2: Registry<Rate>)
    requires provider in apis1 <==> provider in apis2
    requires provider in apis1 ==> apis1[provider] == apis2[provider]
    ensures GetRates(provider, req, apis1) == GetRates(provider, req, apis2)
  {
  }

  /** The same holds for account queries. */
  lemma AccountsReadOnlyNamedBackend<Rate>(provider: string, req: AccountRequest, apis1: Registry<Rate>, apis2: Registry<Rate>)
    requires provider in apis1 <==> provider in apis2
    requires provider in apis1 ==> apis1[provider] == apis2[provider]
    ensures GetAccounts(provider, req, apis1) == GetAccounts(provider, req, apis2)
  {
  }

  /** A rates query fails exactly when the identifier is unregistered or
      its backend fails; the error is then the unknown-provider text or
      the backend's own error, unwrapped. */
  lemma RatesFailureCases<Rate>(provider: string, req: RatesRequest, apis: Registry<Rate>)
    ensures var r := GetRates(provider, req, apis).value;
      && (r.Failure? <==> provider !in apis || apis[provider].rates(req.assets).Failure?)
      && (r.Failure? && provider in apis ==> r.error == apis[provider].rates(req.assets).error)
  {
  }

  /** An account query fails exactly when the identifier is unregistered
      or its backend fails, with the corresponding error. */
  lemma AccountsFailureCases<Rate>(provider: string, req: AccountRequest, apis: Registry<Rate>)
    ensures var r := GetAccounts(provider, req, apis).value;
      && (r.Failure? <==> provider !in apis || apis[provider].accounts(req).Failure?)
      && (r.Failure? && provider in apis ==> r.error == apis[provider].accounts(req).error)
  {
  }

  /** Rates and account queries resolve identifiers identically: both
      reach the same backend, or both refuse with the same error. */
  lemma QueriesResolveAlike<Rate>(provider: string, rates: RatesRequest, account: AccountRequest, apis: Registry<Rate>)
    ensures GetRates(provider, rates, apis).calls == GetAccounts(provider, account, apis).calls
    ensures provider !in apis ==> GetRates(provider, rates, apis).value.error == GetAccounts(provider, account, apis).value.error
  {
  }

  /** A backend whose descriptor fails is left out of the listing but is
      still reachable by name: the listing's error isolation does not
      unregister it. */
  lemma FailedListingStillQueryable<Rate>(apis: Registry<Rate>, order: seq<string>, provider: string, req: RatesRequest)
    requires IsIterationOrder(apis, order)
    requires provider in apis && apis[provider].providerInfo.Failure?
    ensures provider in GetProviders(apis, order).calls
    ensures GetRates(provider, req, apis) == Traced(apis[provider].rates(req.assets), [provider])
  {
  }
}
