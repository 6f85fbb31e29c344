/** The plain-data lending types of package blockatlas: providers, their
    asset catalogues, account requests and the contracts an account holds.
    Quantities that need arbitrary precision (total supply, minimum amount,
    current amount) stay decimal strings, exactly as the source keeps them. */
module BlockAtlas {
  import opened Wrappers

  /** Go's int64. */
  newtype int64 = x: int | -0x8000_0000_0000_0000 <= x < 0x8000_0000_0000_0000

  /** A Go float64, kept as its IEEE-754 bit pattern; nothing here reads it. */
  datatype Float64 = Float64(bits: bv64)

  /** Go's `type ProviderType string`: any string is a legal value; the
      package names two of them. */
  datatype ProviderType = ProviderType(name: string)

  const ProviderTypeLending := ProviderType("lending")
  const ProviderTypeStaking := ProviderType("staking")

  datatype LendingProviderInfo = LendingProviderInfo(
    id: string,
    description: string,
    image: string,
    website: string)

  datatype DefiTokenInfo = DefiTokenInfo(
    symbol: string,
    chain: string,
    contractAddress: string)

  datatype DefiAssetInfo = DefiAssetInfo(
    assetToken: DefiTokenInfo,
    technicalToken: DefiTokenInfo)

  /** `defiInfo` is the nil-able pointer of the source. */
  datatype AssetMetaInfo = AssetMetaInfo(defiInfo: Option<DefiAssetInfo>)

  datatype AssetInfo = AssetInfo(
    symbol: string,
    description: string,
    apy: Float64,
    yieldPeriod: int64,      // validity period of the current APY; 0 for a variable APY
    yieldFrequency: int64,   // seconds between yield computations
    totalSupply: string,
    minimumAmount: string,
    metaInfo: AssetMetaInfo)

  datatype LendingProvider = LendingProvider(
    id: string,
    info: LendingProviderInfo,
    kind: ProviderType,
    assets: seq<AssetInfo>)

  datatype AccountRequest = AccountRequest(
    addresses: seq<string>,
    assets: seq<string>)

  /** The body of a rates query; only its asset list is ever read. */
  datatype RatesRequest = RatesRequest(assets: seq<string>)

  datatype LendingContract = LendingContract(
    asset: AssetInfo,
    currentAmount: string)

  datatype AccountLendingContracts = AccountLendingContracts(
    address: string,
    contracts: seq<LendingContract>)
}
