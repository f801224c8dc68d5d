/** The `Option` closures of types/config.go: what each `*Option` constructor's
    closure does to the config it is given, the loop that applies a list of
    them, and a reference reading of that list in which the last option for a
    field simply wins. */
module Options {
  import opened ConfigTypes

  /** One value per `*Option` constructor: the closure it returns, with the
      argument it captured. */
  datatype Option =
    | GasOption(gas: uint64)
    | FeeOption(fee: DecCoins)
    | AlgoOption(algo: string)
    | KeyDAOOption(dao: Ref)
    | ModeOption(mode: BroadcastMode)
    | TimeoutOption(timeout: uint64)
    | LevelOption(level: string)
    | MaxTxBytesOption(maxTxBytes: uint64)
    | GasAdjustmentOption(gasAdjustment: real)
    | CachedOption(enabled: bool)
    | TokenManagerOption(tokenManager: Ref)
    | TxSizeLimitOption(txSizeLimit: uint64)
    | KeyManagerOption(keyManager: Ref)
    | Bech32AddressPrefixOption(prefix: AddrPrefixCfg)
    | BIP44PathOption(path: string)
    | BSNProjectInfoOption(info: BSNProjectInfo)

  /** The optional fields of ClientConfig, one per option. */
  datatype Field =
    | GasField | FeeField | AlgoField | KeyDAOField | ModeField | TimeoutField
    | LevelField | MaxTxBytesField | GasAdjustmentField | CachedField
    | TokenManagerField | TxSizeLimitField | KeyManagerField
    | Bech32AddressPrefixField | BIP44PathField | BSNProjectField

  /** The ClientConfig field an option assigns. */
  function Target(o: Option): Field
  {
    match o
    case GasOption(_) => GasField
    case FeeOption(_) => FeeField
    case AlgoOption(_) => AlgoField
    case KeyDAOOption(_) => KeyDAOField
    case ModeOption(_) => ModeField
    case TimeoutOption(_) => TimeoutField
    case LevelOption(_) => LevelField
    case MaxTxBytesOption(_) => MaxTxBytesField
    case GasAdjustmentOption(_) => GasAdjustmentField
    case CachedOption(_) => CachedField
    case TokenManagerOption(_) => TokenManagerField
    case TxSizeLimitOption(_) => TxSizeLimitField
    case KeyManagerOption(_) => KeyManagerField
    case Bech32AddressPrefixOption(_) => Bech32AddressPrefixField
    case BIP44PathOption(_) => BIP44PathField
    case BSNProjectInfoOption(_) => BSNProjectField
  }

  /** a and b agree on every field except possibly f. */
  predicate SameOutside(a: ClientConfig, b: ClientConfig, f: Field)
  {
    Erase(a, f) == Erase(b, f)
  }

  /** The config with field f reset to its zero value. */
  function Erase(c: ClientConfig, f: Field): ClientConfig
  {
    match f
    case GasField => c.(Gas := 0)
    case FeeField => c.(Fee := [])
    case KeyDAOField => c.(KeyDAO := Nil)
    case AlgoField => c.(Algo := "")
    case ModeField => c.(Mode := "")
    case TimeoutField => c.(Timeout := 0)
    case LevelField => c.(Level := "")
    case MaxTxBytesField => c.(MaxTxBytes := 0)
    case GasAdjustmentField => c.(GasAdjustment := 0.0)
    case CachedField => c.(Cached := false)
    case TokenManagerField => c.(TokenManager := Nil)
    case TxSizeLimitField => c.(TxSizeLimit := 0)
    case KeyManagerField => c.(KeyManager := Nil)
    case Bech32AddressPrefixField => c.(Bech32AddressPrefix := AddrPrefixCfg("", "", "", "", "", ""))
    case BIP44PathField => c.(BIP44Path := "")
    case BSNProjectField => c.(BSNProject := BSNProjectInfo("", "", ""))
  }

  // ---------------------------------------------------------------------
  // The per-field rules the closures apply to their captured argument.
  // ---------------------------------------------------------------------

  /** The rule of the Gas, Timeout, MaxTxBytes, TxSizeLimit, Algo, Mode, Level,
      BIP44Path and TokenManager options: the field's zero value becomes the
      fallback, any other value passes through; when the fallback is not
      zero, neither is the result. */
  function OrDefault<T(==)>(v: T, zero: T, fallback: T): (r: T)
    ensures v != zero ==> r == v
    ensures v == zero ==> r == fallback
    ensures fallback != zero ==> r != zero
  {
    if v == zero then fallback else v
  }

  /** FeeOption's rule: a nil, empty or invalid fee is replaced wholesale by
      the parsed default fee, never patched; the result is valid and
      non-empty whenever the default is. */
  function FeeRule(fee: DecCoins, env: Env): (r: DecCoins)
    ensures |fee| > 0 && env.feeIsValid(fee) ==> r == fee
    ensures |fee| == 0 || !env.feeIsValid(fee) ==> r == env.parsedDefaultFees
    ensures |env.parsedDefaultFees| > 0 && env.feeIsValid(env.parsedDefaultFees) ==>
              |r| > 0 && env.feeIsValid(r)
  {
    if |fee| == 0 || !env.feeIsValid(fee) then env.parsedDefaultFees else fee
  }

  /** GasAdjustmentOption's rule, over reals: a non-positive factor becomes 1.0. */
  function GasAdjustmentRule(g: real): (r: real)
    ensures r > 0.0
    ensures g > 0.0 ==> r == g
    ensures g <= 0.0 ==> r == DefaultGasAdjustment
  {
    if g <= 0.0 then DefaultGasAdjustment else g
  }

  /** All six prefixes are non-empty. */
  predicate Complete(p: AddrPrefixCfg)
  {
    p.AccountAddr != "" && p.ValidatorAddr != "" && p.ConsensusAddr != "" &&
    p.AccountPub != "" && p.ValidatorPub != "" && p.ConsensusPub != ""
  }

  /** Bech32AddressPrefixOption's rule, in the source's two steps: an
      incomplete address triple, then an incomplete public-key triple, each
      replace the record by the default. The net effect is all or nothing:
      the caller's record survives exactly when it is complete. */
  function PrefixRule(p: AddrPrefixCfg, env: Env): (r: AddrPrefixCfg)
    ensures r == if Complete(p) then p else env.prefixCfg
  {
    var p1 := if p.AccountAddr == "" || p.ValidatorAddr == "" || p.ConsensusAddr == ""
              then env.prefixCfg else p;
    if p1.AccountPub == "" || p1.ValidatorPub == "" || p1.ConsensusPub == ""
    then env.prefixCfg else p1
  }

  /** KeyDAOOption's rule: a nil store is replaced by the default LevelDB
      store, whose failure to open is returned as the option's error. */
  function OpenIfNil(dao: Ref, env: Env): (r: Result<Ref>)
    ensures r.Err? <==> dao == Nil && env.defaultStore.OpenFailed?
    ensures r.Err? ==> r.error == StoreOpenFailed(env.defaultStore.cause)
    ensures r.Ok? ==> r.value != Nil && (dao != Nil ==> r.value == dao)
  {
    if dao == Nil then
      match env.defaultStore
      case Opened(id) => Ok(Ref(id))
      case OpenFailed(cause) => Err(StoreOpenFailed(cause))
    else Ok(dao)
  }

  // ---------------------------------------------------------------------
  // Applying options.
  // ---------------------------------------------------------------------

  /** Calling an option's closure on the config: it assigns its own field,
      after its rule. Only a KeyDAOOption(nil) can fail, and only when the
      default store cannot be opened. */
  function ApplyOption(c: ClientConfig, o: Option, env: Env): (r: Result<ClientConfig>)
    ensures r.Err? <==> o == KeyDAOOption(Nil) && env.defaultStore.OpenFailed?
    ensures r.Err? ==> r.error == StoreOpenFailed(env.defaultStore.cause)
  {
    match o
    case GasOption(gas) => Ok(c.(Gas := OrDefault(gas, 0, DefaultGas)))
    case FeeOption(fee) => Ok(c.(Fee := FeeRule(fee, env)))
    case AlgoOption(algo) => Ok(c.(Algo := OrDefault(algo, "", DefaultAlgo)))
    case KeyDAOOption(dao) =>
      (match OpenIfNil(dao, env)
       case Err(e) => Err(e)
       case Ok(d) => Ok(c.(KeyDAO := d)))
    case ModeOption(mode) => Ok(c.(Mode := OrDefault(mode, "", DefaultMode)))
    case TimeoutOption(timeout) => Ok(c.(Timeout := OrDefault(timeout, 0, DefaultTimeout)))
    case LevelOption(level) => Ok(c.(Level := OrDefault(level, "", DefaultLevel)))
    case MaxTxBytesOption(n) => Ok(c.(MaxTxBytes := OrDefault(n, 0, DefaultMaxTxsBytes)))
    case GasAdjustmentOption(g) => Ok(c.(GasAdjustment := GasAdjustmentRule(g)))
    case CachedOption(enabled) => Ok(c.(Cached := enabled))
    case TokenManagerOption(tm) => Ok(c.(TokenManager := OrDefault(tm, Nil, DefaultTokenManager)))
    case TxSizeLimitOption(n) => Ok(c.(TxSizeLimit := OrDefault(n, 0, DefaultTxSizeLimit)))
    case KeyManagerOption(km) => Ok(c.(KeyManager := km))
    case Bech32AddressPrefixOption(p) => Ok(c.(Bech32AddressPrefix := PrefixRule(p, env)))
    case BIP44PathOption(path) => Ok(c.(BIP44Path := OrDefault(path, "", FullPath)))
    case BSNProjectInfoOption(info) =>
      Ok(c.(BSNProject := BSNProjectInfo(info.ProjectId, info.ProjectKey, info.ChainAccountAddress)))
  }

  /** An option touches no field but its own. */
  lemma ApplyOptionFrame(c: ClientConfig, o: Option, env: Env)
    requires ApplyOption(c, o, env).Ok?
    ensures SameOutside(c, ApplyOption(c, o, env).value, Target(o))
  {
  }

  /** NewClientConfig's option loop: the options run in order and the first
      error ends it. The loop fails exactly when the default store cannot be
      opened and some option is a KeyDAOOption(nil); no option ever changes
      the node URI, the gRPC address or the chain id. */
  function ApplyAll(c: ClientConfig, opts: seq<Option>, env: Env): (r: Result<ClientConfig>)
    ensures r.Err? <==> env.defaultStore.OpenFailed? && KeyDAOOption(Nil) in opts
    ensures r.Err? ==> r.error == StoreOpenFailed(env.defaultStore.cause)
    ensures r.Ok? ==> r.value.NodeURI == c.NodeURI && r.value.GRPCAddr == c.GRPCAddr
                      && r.value.ChainID == c.ChainID
    decreases |opts|
  {
    if opts == [] then Ok(c)
    else
      match ApplyOption(c, opts[0], env)
      case Err(e) => Err(e)
      case Ok(c1) =>
        assert opts == [opts[0]] + opts[1..];
        ApplyAll(c1, opts[1..], env)
  }

  /** Running p then q is running p + q; once p has failed, nothing in q runs. */
  lemma {:induction false} ApplyAllAppend(c: ClientConfig, p: seq<Option>, q: seq<Option>, env: Env)
    ensures ApplyAll(c, p + q, env) ==
            match ApplyAll(c, p, env)
            case Err(e) => Err(e)
            case Ok(c1) => ApplyAll(c1, q, env)
    decreases |p|
  {
    if p == [] {
      assert p + q == q;
    } else {
      assert (p + q)[0] == p[0];
      assert (p + q)[1..] == p[1..] + q;
      match ApplyOption(c, p[0], env)
      case Err(e) =>
      case Ok(c1) =>
        ApplyAllAppend(c1, p[1..], q, env);
    }
  }

  /** Of two options for the same field, the later one wins. */
  lemma SameTargetLaterWins(c: ClientConfig, o1: Option, o2: Option, env: Env)
    requires Target(o1) == Target(o2)
    requires ApplyOption(c, o1, env).Ok?
    ensures ApplyAll(c, [o1, o2], env) == ApplyOption(c, o2, env)
  {
    var c1 := ApplyOption(c, o1, env).value;
    ApplyOptionFrame(c, o1, env);
    ApplyOptionLocal(c1, c, o2, env);
    assert [o1, o2][1..] == [o2] && [o2][1..] == [];
    assert ApplyAll(c, [o1, o2], env) == ApplyAll(c1, [o2], env);
    match ApplyOption(c1, o2, env)
    case Err(e) =>
    case Ok(c2) =>
      assert ApplyAll(c1, [o2], env) == ApplyAll(c2, [], env);
  }

  /** A closure never reads the field it assigns: two configs that differ at
      most in that field give the same result. */
  lemma ApplyOptionLocal(c: ClientConfig, d: ClientConfig, o: Option, env: Env)
    requires SameOutside(c, d, Target(o))
    ensures ApplyOption(c, o, env) == ApplyOption(d, o, env)
  {
  }

  // ---------------------------------------------------------------------
  // The reference reading: the raw values the caller supplied.
  // ---------------------------------------------------------------------

  /** An option's argument stored in its field as is, without the rule. */
  function Assign(c: ClientConfig, o: Option): ClientConfig
  {
    match o
    case GasOption(gas) => c.(Gas := gas)
    case FeeOption(fee) => c.(Fee := fee)
    case AlgoOption(algo) => c.(Algo := algo)
    case KeyDAOOption(dao) => c.(KeyDAO := dao)
    case ModeOption(mode) => c.(Mode := mode)
    case TimeoutOption(timeout) => c.(Timeout := timeout)
    case LevelOption(level) => c.(Level := level)
    case MaxTxBytesOption(n) => c.(MaxTxBytes := n)
    case GasAdjustmentOption(g) => c.(GasAdjustment := g)
    case CachedOption(enabled) => c.(Cached := enabled)
    case TokenManagerOption(tm) => c.(TokenManager := tm)
    case TxSizeLimitOption(n) => c.(TxSizeLimit := n)
    case KeyManagerOption(km) => c.(KeyManager := km)
    case Bech32AddressPrefixOption(p) => c.(Bech32AddressPrefix := p)
    case BIP44PathOption(path) => c.(BIP44Path := path)
    case BSNProjectInfoOption(info) => c.(BSNProject := info)
  }

  /** The values the caller supplied: every field holds the argument of the
      last option for it, or its value in c when no option names it. */
  function Supplied(c: ClientConfig, opts: seq<Option>): ClientConfig
    decreases |opts|
  {
    if opts == [] then c else Supplied(Assign(c, opts[0]), opts[1..])
  }

  /** The last option of a list is assigned last. */
  lemma {:induction false} SuppliedAppend(c: ClientConfig, opts: seq<Option>, o: Option)
    ensures Supplied(c, opts + [o]) == Assign(Supplied(c, opts), o)
    decreases |opts|
  {
    if opts == [] {
      assert opts + [o] == [o];
      assert [o][1..] == [];
    } else {
      assert (opts + [o])[0] == opts[0];
      assert (opts + [o])[1..] == opts[1..] + [o];
      SuppliedAppend(Assign(c, opts[0]), opts[1..], o);
    }
  }

  /** A later option for the same field overwrites an earlier one. */
  lemma AssignOverwrites(c: ClientConfig, o1: Option, o2: Option)
    requires Target(o1) == Target(o2)
    ensures Assign(Assign(c, o1), o2) == Assign(c, o2)
  {
  }
}
