/** Network-dependent constants (src/utils/constants.ts). */
module Constants {
  import opened Wrappers

  /** Coin types (SLIP-44 numbers) of the chains the application knows. */
  const ETH := 60
  const CKB := 309
  const AR := 472
  const MATIC := 966
  const BSC := 9006

  /** EVM chain ids, mainnet and testnet. */
  const ETH_MAINNET := 1
  const ETH_GOERLI := 5
  const BSC_MAINNET := 56
  const BSC_CHAPEL := 97
  const POLYGON_MAINNET := 137
  const POLYGON_MUMBAI := 80001

  /** The coin types that have an EVM chain. */
  const EVM_COIN_TYPES: set<int> := {ETH, MATIC, BSC}

  /** `isTestnet`: the environment variable is set to a non-empty string. */
  function IsTestnet(env: Option<string>): (r: bool)
    ensures r <==> env.Some? && |env.value| > 0
  {
    match env
    case Some(v) => v != ""
    case None => false
  }

  /** `documentTitle`: "Voty Testnet" on testnet and "Voty Alpha" otherwise. */
  function DocumentTitle(isTestnet: bool): (r: string)
    ensures r == "Voty Testnet" <==> isTestnet
    ensures r == "Voty Alpha" <==> !isTestnet
  {
    "Voty " + (if isTestnet then "Testnet" else "Alpha")
  }

  /** `chainIdToRpc`: an RPC endpoint for every known chain id, on either network. */
  function ChainIdToRpc(): (r: map<int, string>)
    ensures r.Keys == {ETH_MAINNET, ETH_GOERLI, BSC_MAINNET, BSC_CHAPEL, POLYGON_MAINNET, POLYGON_MUMBAI}
  {
    map[
      ETH_MAINNET := "https://rpc.ankr.com/eth",
      ETH_GOERLI := "https://rpc.ankr.com/eth_goerli",
      BSC_MAINNET := "https://rpc.ankr.com/bsc",
      BSC_CHAPEL := "https://rpc.ankr.com/bsc_testnet_chapel",
      POLYGON_MAINNET := "https://rpc.ankr.com/polygon",
      POLYGON_MUMBAI := "https://rpc.ankr.com/polygon_mumbai"
    ]
  }

  /** `chainIdToCoinType`: the chain ids of the configured network only. */
  function ChainIdToCoinType(isTestnet: bool): map<int, int> {
    map[
      (if isTestnet then ETH_GOERLI else ETH_MAINNET) := ETH,
      (if isTestnet then BSC_CHAPEL else BSC_MAINNET) := BSC,
      (if isTestnet then POLYGON_MUMBAI else POLYGON_MAINNET) := MATIC
    ]
  }

  /** `coinTypeToChainId`: the chain id of each EVM coin type on the configured network. */
  function CoinTypeToChainId(isTestnet: bool): (r: map<int, int>)
    ensures r.Keys == EVM_COIN_TYPES
  {
    map[
      ETH := (if isTestnet then ETH_GOERLI else ETH_MAINNET),
      MATIC := (if isTestnet then POLYGON_MUMBAI else POLYGON_MAINNET),
      BSC := (if isTestnet then BSC_CHAPEL else BSC_MAINNET)
    ]
  }

  /** Going from an EVM coin type to its chain id and back yields the coin type. */
  lemma CoinTypeChainIdRoundTrip(isTestnet: bool, coinType: int)
    requires coinType in EVM_COIN_TYPES
    ensures CoinTypeToChainId(isTestnet)[coinType] in ChainIdToCoinType(isTestnet)
    ensures ChainIdToCoinType(isTestnet)[CoinTypeToChainId(isTestnet)[coinType]] == coinType
  {
  }

  /** Going from a chain id of the network to its coin type and back yields the chain id. */
  lemma ChainIdCoinTypeRoundTrip(isTestnet: bool, chainId: int)
    requires chainId in ChainIdToCoinType(isTestnet)
    ensures ChainIdToCoinType(isTestnet)[chainId] in CoinTypeToChainId(isTestnet)
    ensures CoinTypeToChainId(isTestnet)[ChainIdToCoinType(isTestnet)[chainId]] == chainId
  {
  }

  /** Distinct coin types never share a chain id. */
  lemma CoinTypeToChainIdInjective(isTestnet: bool, c1: int, c2: int)
    requires c1 in CoinTypeToChainId(isTestnet) && c2 in CoinTypeToChainId(isTestnet)
    requires CoinTypeToChainId(isTestnet)[c1] == CoinTypeToChainId(isTestnet)[c2]
    ensures c1 == c2
  {
  }

  /**
   * CKB and AR have no chain id; the chain ids of the other network map to no coin type;
   * every chain id that maps to a coin type has an RPC endpoint.
   */
  lemma NetworkSeparation(isTestnet: bool)
    ensures CKB !in CoinTypeToChainId(isTestnet) && AR !in CoinTypeToChainId(isTestnet)
    ensures isTestnet ==>
      ETH_MAINNET !in ChainIdToCoinType(isTestnet) && BSC_MAINNET !in ChainIdToCoinType(isTestnet)
      && POLYGON_MAINNET !in ChainIdToCoinType(isTestnet)
    ensures !isTestnet ==>
      ETH_GOERLI !in ChainIdToCoinType(isTestnet) && BSC_CHAPEL !in ChainIdToCoinType(isTestnet)
      && POLYGON_MUMBAI !in ChainIdToCoinType(isTestnet)
    ensures ChainIdToCoinType(isTestnet).Keys <= ChainIdToRpc().Keys
  {
  }
}
