/** The data model of types/config.go: the ClientConfig record, the values its
    fields hold, the package's default constants, and the collaborators whose
    code is not part of this model (fee validity, the parsed default fee, the
    default address prefixes, the default key store). */
module ConfigTypes {

  /** Go's uint64; `uint` (the Timeout field) is taken to be 64 bits wide. */
  newtype uint64 = x: int | 0 <= x < 0x1_0000_0000_0000_0000

  /** A Go interface value (KeyDAO, TokenManager, KeyManager): nil, or some
      implementation, known here only by an identity. */
  datatype Ref = Nil | Ref(id: nat)

  /** One denomination of a DecCoins amount. The decimal amount is kept as a
      real: no arithmetic is done on it in this core. */
  datatype DecCoin = DecCoin(denom: string, amount: real)

  /** A DecCoins slice; a nil slice and an empty one are both []. */
  type DecCoins = seq<DecCoin>

  /** BroadcastMode is a string type in the SDK. */
  type BroadcastMode = string

  const Sync: BroadcastMode := "sync"

  /** The six bech32 prefixes: account, validator and consensus, each for
      addresses and for public keys. */
  datatype AddrPrefixCfg = AddrPrefixCfg(
    AccountAddr: string, ValidatorAddr: string, ConsensusAddr: string,
    AccountPub: string, ValidatorPub: string, ConsensusPub: string)

  /** The BSN project identity. */
  datatype BSNProjectInfo = BSNProjectInfo(
    ProjectId: string, ProjectKey: string, ChainAccountAddress: string)

  /** The client configuration, field for field as the Go struct. */
  datatype ClientConfig = ClientConfig(
    NodeURI: string,
    GRPCAddr: string,
    ChainID: string,
    Gas: uint64,
    Fee: DecCoins,
    KeyDAO: Ref,
    Algo: string,
    Mode: BroadcastMode,
    Timeout: uint64,
    Level: string,
    MaxTxBytes: uint64,
    GasAdjustment: real,
    Cached: bool,
    TokenManager: Ref,
    KeyManager: Ref,
    TxSizeLimit: uint64,
    Bech32AddressPrefix: AddrPrefixCfg,
    BIP44Path: string,
    BSNProject: BSNProjectInfo)

  // The package's default constants.
  const DefaultGas: uint64 := 200000
  const DefaultFees: string := "4iris"
  const DefaultTimeout: uint64 := 5
  const DefaultLevel: string := "info"
  const DefaultMaxTxsBytes: uint64 := 1073741824
  const DefaultAlgo: string := "secp256k1"
  const DefaultMode: BroadcastMode := Sync
  const DefaultPath: string := "$HOME/irishub-sdk-go/leveldb"
  const DefaultGasAdjustment: real := 1.0
  const DefaultTxSizeLimit: uint64 := 1048576
  const BIP44Prefix: string := "44'/118'/"
  const PartialPath: string := "0'/0/0"
  /** The default BIP-44 derivation path, "44'/118'/0'/0/0". */
  const FullPath: string := BIP44Prefix + PartialPath

  /** The value `DefaultTokenManager{}`. */
  const DefaultTokenManager: Ref := Ref(0)

  /** The errors construction can end with. */
  datatype ConfigError =
    | MissingNodeURI
    | MissingChainID
    | StoreOpenFailed(cause: string)

  /** The text of each error, as the source formats it. */
  function Message(e: ConfigError): string
  {
    match e
    case MissingNodeURI => "nodeURI is required"
    case MissingChainID => "chainID is required"
    case StoreOpenFailed(cause) => cause
  }

  /** A value or the error that stopped its computation; `Result<()>` stands
      for a Go `error` return, Ok(()) being nil. */
  datatype Result<T> = Ok(value: T) | Err(error: ConfigError)

  /** What opening the LevelDB key store at the expanded DefaultPath gives. */
  datatype StoreOutcome = Opened(id: nat) | OpenFailed(cause: string)

  /** The collaborators the builder consults and whose code is not part of
      this model:
      - feeIsValid: `DecCoins.IsValid`;
      - parsedDefaultFees: what `ParseDecCoins(DefaultFees)` returns (its
        error is discarded by the source);
      - prefixCfg: the package variable `*PrefixCfg`, read when defaulting;
      - defaultStore: the outcome of `store.NewLevelDB(os.ExpandEnv(DefaultPath), nil)`. */
  datatype Env = Env(
    feeIsValid: DecCoins -> bool,
    parsedDefaultFees: DecCoins,
    prefixCfg: AddrPrefixCfg,
    defaultStore: StoreOutcome)

  /** Go's zero value `ClientConfig{}`. */
  function ZeroConfig(): ClientConfig
  {
    ClientConfig("", "", "", 0, [], Nil, "", "", 0, "", 0, 0.0, false, Nil, Nil, 0,
                 AddrPrefixCfg("", "", "", "", "", ""), "", BSNProjectInfo("", "", ""))
  }

  /** The config NewClientConfig starts from: the zero value holding the three
      required values. */
  function Seed(uri: string, grpcAddr: string, chainID: string): (c: ClientConfig)
    ensures c.NodeURI == uri && c.GRPCAddr == grpcAddr && c.ChainID == chainID
    ensures c.(NodeURI := "", GRPCAddr := "", ChainID := "") == ZeroConfig()
  {
    ZeroConfig().(NodeURI := uri, GRPCAddr := grpcAddr, ChainID := chainID)
  }
}
