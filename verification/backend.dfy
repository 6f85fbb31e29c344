/** The provider backend capability (Go interface `LendingAPI`) and the
    registry that maps provider identifiers to backends.

    A backend is modelled by its canned outcomes: the descriptor its
    `GetProviderInfo` returns, and the functions its two queries compute.
    An error is the text of the Go error value. `Rate` stands for the
    rate record type, which the model never looks inside. */
module LendingApi {
  import opened Wrappers
  import opened BlockAtlas

  datatype Backend<Rate> = Backend(
    providerInfo: Result<LendingProvider, string>,
    rates: seq<string> -> Result<seq<Rate>, string>,
    accounts: AccountRequest -> Result<seq<AccountLendingContracts>, string>)

  /** Provider identifier -> backend, built once and never changed. */
  type Registry<Rate> = map<string, Backend<Rate>>

  /** The registry convention: a backend that describes itself does so
      under the identifier it is registered with. The code does not check
      this; lemmas that need it say so. */
  ghost predicate WellKeyed<Rate>(apis: Registry<Rate>) {
    forall k :: k in apis && apis[k].providerInfo.Success? ==> apis[k].providerInfo.value.id == k
  }
}
