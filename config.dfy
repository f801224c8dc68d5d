/** NewClientConfig and checkAndSetDefault of types/config.go: the defaulting
    pass, the builder that runs the caller's options and then that pass, the
    mutable config the option closures update, and what the built config is
    in terms of the values the caller supplied. */
module Config {
  import opened ConfigTypes
  import opened Options

  /** The assumptions about collaborators under which the defaults are
      themselves well formed: the parsed default fee is non-empty and valid,
      and the default address prefixes are complete. */
  predicate SoundDefaults(env: Env)
  {
    |env.parsedDefaultFees| > 0 && env.feeIsValid(env.parsedDefaultFees) && Complete(env.prefixCfg)
  }

  /** What a built config guarantees to the code that uses it: the required
      values are present and every defaulted field is non-zero, non-empty,
      positive or complete. */
  predicate WellFormed(c: ClientConfig, env: Env)
  {
    c.NodeURI != "" && c.ChainID != "" &&
    c.Gas > 0 && |c.Fee| > 0 && env.feeIsValid(c.Fee) && c.KeyDAO != Nil &&
    c.Algo != "" && c.Mode != "" && c.Timeout > 0 && c.Level != "" &&
    c.MaxTxBytes > 0 && c.GasAdjustment > 0.0 && c.TokenManager != Nil &&
    c.TxSizeLimit > 0 && Complete(c.Bech32AddressPrefix) && c.BIP44Path != ""
  }

  /** checkAndSetDefault, field by field. An empty node URI, then an empty
      chain id, are hard errors; a nil key store is replaced by the default
      store, whose failure to open is the only other error. Every other
      field is driven to its default when zero or empty; the cache flag, the
      key manager and the project identity are left as they are. */
  function Defaults(c: ClientConfig, env: Env): (r: Result<ClientConfig>)
    ensures r.Err? <==> c.NodeURI == "" || c.ChainID == "" ||
                        (c.KeyDAO == Nil && env.defaultStore.OpenFailed?)
    ensures c.NodeURI == "" ==> r == Err(MissingNodeURI)
    ensures c.NodeURI != "" && c.ChainID == "" ==> r == Err(MissingChainID)
    ensures c.NodeURI != "" && c.ChainID != "" && c.KeyDAO == Nil && env.defaultStore.OpenFailed? ==>
              r == Err(StoreOpenFailed(env.defaultStore.cause))
    ensures r.Ok? ==> OpenIfNil(c.KeyDAO, env) == Ok(r.value.KeyDAO)
    ensures r.Ok? ==> r.value.NodeURI == c.NodeURI && r.value.GRPCAddr == c.GRPCAddr &&
                      r.value.ChainID == c.ChainID && r.value.Cached == c.Cached &&
                      r.value.KeyManager == c.KeyManager && r.value.BSNProject == c.BSNProject
    ensures r.Ok? && SoundDefaults(env) ==> WellFormed(r.value, env)
  {
    if |c.NodeURI| == 0 then Err(MissingNodeURI)
    else if |c.ChainID| == 0 then Err(MissingChainID)
    else
      match OpenIfNil(c.KeyDAO, env)
      case Err(e) => Err(e)
      case Ok(dao) =>
        Ok(c.(Gas := OrDefault(c.Gas, 0, DefaultGas),
              Fee := FeeRule(c.Fee, env),
              Algo := OrDefault(c.Algo, "", DefaultAlgo),
              KeyDAO := dao,
              Mode := OrDefault(c.Mode, "", DefaultMode),
              Timeout := OrDefault(c.Timeout, 0, DefaultTimeout),
              Level := OrDefault(c.Level, "", DefaultLevel),
              MaxTxBytes := OrDefault(c.MaxTxBytes, 0, DefaultMaxTxsBytes),
              TokenManager := OrDefault(c.TokenManager, Nil, DefaultTokenManager),
              TxSizeLimit := OrDefault(c.TxSizeLimit, 0, DefaultTxSizeLimit),
              Bech32AddressPrefix := PrefixRule(c.Bech32AddressPrefix, env),
              BIP44Path := OrDefault(c.BIP44Path, "", FullPath),
              GasAdjustment := GasAdjustmentRule(c.GasAdjustment)))
  }

  /** NewClientConfig: the caller's options over the seeded config, then the
      defaulting pass. */
  function Build(uri: string, grpcAddr: string, chainID: string, opts: seq<Option>, env: Env)
    : Result<ClientConfig>
  {
    match ApplyAll(Seed(uri, grpcAddr, chainID), opts, env)
    case Err(e) => Err(e)
    case Ok(c) => Defaults(c, env)
  }

  // ---------------------------------------------------------------------
  // The mutable config the option closures update through a pointer.
  // ---------------------------------------------------------------------

  /** The `cfg` variable of NewClientConfig, whose address every option
      closure and checkAndSetDefault receive. */
  class ConfigState {
    var NodeURI: string
    var GRPCAddr: string
    var ChainID: string
    var Gas: uint64
    var Fee: DecCoins
    var KeyDAO: Ref
    var Algo: string
    var Mode: BroadcastMode
    var Timeout: uint64
    var Level: string
    var MaxTxBytes: uint64
    var GasAdjustment: real
    var Cached: bool
    var TokenManager: Ref
    var KeyManager: Ref
    var TxSizeLimit: uint64
    var Bech32AddressPrefix: AddrPrefixCfg
    var BIP44Path: string
    var BSNProject: BSNProjectInfo

    /** The config value the fields currently hold. */
    function Value(): ClientConfig
      reads this
    {
      ClientConfig(NodeURI, GRPCAddr, ChainID, Gas, Fee, KeyDAO, Algo, Mode, Timeout, Level,
                   MaxTxBytes, GasAdjustment, Cached, TokenManager, KeyManager, TxSizeLimit,
                   Bech32AddressPrefix, BIP44Path, BSNProject)
    }

    /** `ClientConfig{NodeURI: uri, ChainID: chainID, GRPCAddr: grpcAddr}`. */
    constructor (uri: string, grpcAddr: string, chainID: string)
      ensures Value() == Seed(uri, grpcAddr, chainID)
    {
      NodeURI, GRPCAddr, ChainID := uri, grpcAddr, chainID;
      Gas, Fee, KeyDAO, Algo, Mode := 0, [], Nil, "", "";
      Timeout, Level, MaxTxBytes, GasAdjustment, Cached := 0, "", 0, 0.0, false;
      TokenManager, KeyManager, TxSizeLimit := Nil, Nil, 0;
      Bech32AddressPrefix := AddrPrefixCfg("", "", "", "", "", "");
      BIP44Path := "";
      BSNProject := BSNProjectInfo("", "", "");
    }

    // One method per option closure: each assigns its own field after the
    // field's rule and leaves every other field as it was.

    method ApplyGas(gas: uint64)
      modifies this
      ensures Value() == old(Value()).(Gas := OrDefault(gas, 0, DefaultGas))
    {
      var g := gas;
      if g == 0 { g := DefaultGas; }
      Gas := g;
    }

    method ApplyFee(fee: DecCoins, env: Env)
      modifies this
      ensures Value() == old(Value()).(Fee := FeeRule(fee, env))
    {
      var f := fee;
      if |f| == 0 || !env.feeIsValid(f) { f := env.parsedDefaultFees; }
      Fee := f;
    }

    method ApplyAlgo(algo: string)
      modifies this
      ensures Value() == old(Value()).(Algo := OrDefault(algo, "", DefaultAlgo))
    {
      var a := algo;
      if a == "" { a := DefaultAlgo; }
      Algo := a;
    }

    /** The only option that can fail: a nil store is replaced by the default
        store, and when that cannot be opened the config is left alone. */
    method ApplyKeyDAO(dao: Ref, env: Env) returns (err: Result<()>)
      modifies this
      ensures match OpenIfNil(dao, env)
              case Ok(d) => err == Ok(()) && Value() == old(Value()).(KeyDAO := d)
              case Err(e) => err == Err(e) && Value() == old(Value())
    {
      var d := dao;
      if d == Nil {
        match env.defaultStore
        case OpenFailed(cause) =>
          return Err(StoreOpenFailed(cause));
        case Opened(id) =>
          d := Ref(id);
      }
      KeyDAO := d;
      err := Ok(());
    }

    method ApplyMode(mode: BroadcastMode)
      modifies this
      ensures Value() == old(Value()).(Mode := OrDefault(mode, "", DefaultMode))
    {
      var m := mode;
      if m == "" { m := DefaultMode; }
      Mode := m;
    }

    method ApplyTimeout(timeout: uint64)
      modifies this
      ensures Value() == old(Value()).(Timeout := OrDefault(timeout, 0, DefaultTimeout))
    {
      var t := timeout;
      if t == 0 { t := DefaultTimeout; }
      Timeout := t;
    }

    method ApplyLevel(level: string)
      modifies this
      ensures Value() == old(Value()).(Level := OrDefault(level, "", DefaultLevel))
    {
      var l := level;
      if l == "" { l := DefaultLevel; }
      Level := l;
    }

    method ApplyMaxTxBytes(maxTxBytes: uint64)
      modifies this
      ensures Value() == old(Value()).(MaxTxBytes := OrDefault(maxTxBytes, 0, DefaultMaxTxsBytes))
    {
      var n := maxTxBytes;
      if n == 0 { n := DefaultMaxTxsBytes; }
      MaxTxBytes := n;
    }

    method ApplyGasAdjustment(gasAdjustment: real)
      modifies this
      ensures Value() == old(Value()).(GasAdjustment := GasAdjustmentRule(gasAdjustment))
    {
      var g := gasAdjustment;
      if g <= 0.0 { g := DefaultGasAdjustment; }
      GasAdjustment := g;
    }

    method ApplyCached(enabled: bool)
      modifies this
      ensures Value() == old(Value()).(Cached := enabled)
    {
      Cached := enabled;
    }

    method ApplyTokenManager(tokenManager: Ref)
      modifies this
      ensures Value() == old(Value()).(TokenManager := OrDefault(tokenManager, Nil, DefaultTokenManager))
    {
      var tm := tokenManager;
      if tm == Nil { tm := DefaultTokenManager; }
      TokenManager := tm;
    }

    method ApplyTxSizeLimit(txSizeLimit: uint64)
      modifies this
      ensures Value() == old(Value()).(TxSizeLimit := OrDefault(txSizeLimit, 0, DefaultTxSizeLimit))
    {
      var n := txSizeLimit;
      if n == 0 { n := DefaultTxSizeLimit; }
      TxSizeLimit := n;
    }

    method ApplyKeyManager(keyManager: Ref)
      modifies this
      ensures Value() == old(Value()).(KeyManager := keyManager)
    {
      KeyManager := keyManager;
    }

    /** The caller's prefixes survive only when all six are non-empty. */
    method ApplyBech32AddressPrefix(prefix: AddrPrefixCfg, env: Env)
      modifies this
      ensures Value() == old(Value()).(Bech32AddressPrefix :=
                if Complete(prefix) then prefix else env.prefixCfg)
    {
      var p := prefix;
      if p.AccountAddr == "" || p.ValidatorAddr == "" || p.ConsensusAddr == "" {
        p := env.prefixCfg;
      }
      if p.AccountPub == "" || p.ValidatorPub == "" || p.ConsensusPub == "" {
        p := env.prefixCfg;
      }
      Bech32AddressPrefix := p;
    }

    method ApplyBIP44Path(path: string)
      modifies this
      ensures Value() == old(Value()).(BIP44Path := OrDefault(path, "", FullPath))
    {
      var p := path;
      if p == "" { p := FullPath; }
      BIP44Path := p;
    }

    /** The identity is copied field by field, empty strings included. */
    method ApplyBSNProjectInfo(info: BSNProjectInfo)
      modifies this
      ensures Value() == old(Value()).(BSNProject := info)
    {
      BSNProject := BSNProject.(ProjectId := info.ProjectId);
      BSNProject := BSNProject.(ProjectKey := info.ProjectKey);
      BSNProject := BSNProject.(ChainAccountAddress := info.ChainAccountAddress);
    }

    /** Calls the closure `o` stands for on this config. */
    method Apply(o: Option, env: Env) returns (err: Result<()>)
      modifies this
      ensures ApplyOption(old(Value()), o, env).Ok? ==>
                err == Ok(()) && Value() == ApplyOption(old(Value()), o, env).value
      ensures ApplyOption(old(Value()), o, env).Err? ==>
                err == Err(ApplyOption(old(Value()), o, env).error) && Value() == old(Value())
    {
      err := Ok(());
      // Each branch names ApplyOption's result for its own option, which
      // keeps the proof from unfolding all sixteen cases at once.
      ghost var before := Value();
      match o
      case GasOption(gas) =>
        ApplyGas(gas);
        assert ApplyOption(before, o, env) == Ok(Value());
      case FeeOption(fee) =>
        ApplyFee(fee, env);
        assert ApplyOption(before, o, env) == Ok(Value());
      case AlgoOption(algo) =>
        ApplyAlgo(algo);
        assert ApplyOption(before, o, env) == Ok(Value());
      case KeyDAOOption(dao) => err := ApplyKeyDAO(dao, env);
      case ModeOption(mode) =>
        ApplyMode(mode);
        assert ApplyOption(before, o, env) == Ok(Value());
      case TimeoutOption(timeout) =>
        ApplyTimeout(timeout);
        assert ApplyOption(before, o, env) == Ok(Value());
      case LevelOption(level) =>
        ApplyLevel(level);
        assert ApplyOption(before, o, env) == Ok(Value());
      case MaxTxBytesOption(n) =>
        ApplyMaxTxBytes(n);
        assert ApplyOption(before, o, env) == Ok(Value());
      case GasAdjustmentOption(g) =>
        ApplyGasAdjustment(g);
        assert ApplyOption(before, o, env) == Ok(Value());
      case CachedOption(enabled) =>
        ApplyCached(enabled);
        assert ApplyOption(before, o, env) == Ok(Value());
      case TokenManagerOption(tm) =>
        ApplyTokenManager(tm);
        assert ApplyOption(before, o, env) == Ok(Value());
      case TxSizeLimitOption(n) =>
        ApplyTxSizeLimit(n);
        assert ApplyOption(before, o, env) == Ok(Value());
      case KeyManagerOption(km) =>
        ApplyKeyManager(km);
        assert ApplyOption(before, o, env) == Ok(Value());
      case Bech32AddressPrefixOption(p) =>
        ApplyBech32AddressPrefix(p, env);
        assert ApplyOption(before, o, env) == Ok(Value());
      case BIP44PathOption(path) =>
        ApplyBIP44Path(path);
        assert ApplyOption(before, o, env) == Ok(Value());
      case BSNProjectInfoOption(info) =>
        ApplyBSNProjectInfo(info);
        assert ApplyOption(before, o, env) == Ok(Value());
    }

    /** checkAndSetDefault: the two required-field checks, then every option
        except CachedOption and KeyManagerOption re-run on its field's current
        value, in the source's order. Of those options only KeyDAOOption can
        fail, so its error is the only one there is to return. */
    method CheckAndSetDefault(env: Env) returns (err: Result<()>)
      modifies this
      ensures match Defaults(old(Value()), env)
              case Ok(c) => err == Ok(()) && Value() == c
              case Err(e) => err == Err(e)
    {
      if |NodeURI| == 0 {
        return Err(MissingNodeURI);
      }
      if |ChainID| == 0 {
        return Err(MissingChainID);
      }
      ApplyGas(Gas);
      ApplyFee(Fee, env);
      ApplyAlgo(Algo);
      err := ApplyKeyDAO(KeyDAO, env);
      if err.Err? {
        return;
      }
      ApplyMode(Mode);
      ApplyTimeout(Timeout);
      ApplyLevel(Level);
      ApplyMaxTxBytes(MaxTxBytes);
      ApplyTokenManager(TokenManager);
      ApplyTxSizeLimit(TxSizeLimit);
      ApplyBech32AddressPrefix(Bech32AddressPrefix, env);
      ApplyBIP44Path(BIP44Path);
      ApplyBSNProjectInfo(BSNProject);
      ApplyGasAdjustment(GasAdjustment);
    }
  }

  /** NewClientConfig: seed a config with the three required values, run the
      options in order, stop at the first error, then run the defaulting
      pass. Any error yields the zero config, never a partial one. */
  method NewClientConfig(uri: string, grpcAddr: string, chainID: string,
                         options: seq<Option>, env: Env)
    returns (cfg: ClientConfig, err: Result<()>)
    ensures err.Err? ==> cfg == ZeroConfig() &&
                         Build(uri, grpcAddr, chainID, options, env) == Err(err.error)
    ensures err.Ok? ==> Build(uri, grpcAddr, chainID, options, env) == Ok(cfg)
    ensures err.Ok? ==> cfg.NodeURI == uri && cfg.GRPCAddr == grpcAddr && cfg.ChainID == chainID
    ensures err.Ok? && SoundDefaults(env) ==> WellFormed(cfg, env)
  {
    var state := new ConfigState(uri, grpcAddr, chainID);
    ghost var seed := Seed(uri, grpcAddr, chainID);
    for i := 0 to |options|
      invariant ApplyAll(seed, options[..i], env) == Ok(state.Value())
    {
      err := state.Apply(options[i], env);
      ApplyAllAppend(seed, options[..i], [options[i]], env);
      assert options[..i + 1] == options[..i] + [options[i]];
      assert [options[i]][1..] == [];
      if err.Err? {
        ApplyAllAppend(seed, options[..i + 1], options[i + 1..], env);
        assert options[..i + 1] + options[i + 1..] == options;
        return ZeroConfig(), err;
      }
    }
    assert options[..|options|] == options;
    err := state.CheckAndSetDefault(env);
    if err.Err? {
      return ZeroConfig(), err;
    }
    cfg := state.Value();
  }

  // ---------------------------------------------------------------------
  // Properties of the defaulting pass and of the builder.
  // ---------------------------------------------------------------------

  /** A field holds either the raw supplied value or that value after its rule. */
  predicate RuleOrRaw<T(==)>(a: T, raw: T, ruled: T)
  {
    a == raw || a == ruled
  }

  /** a is s with some of the option rules already applied to its fields:
      what the option loop leaves behind, compared with the raw values the
      caller supplied. */
  predicate PartlyNormalized(a: ClientConfig, s: ClientConfig, env: Env)
  {
    a.NodeURI == s.NodeURI && a.GRPCAddr == s.GRPCAddr && a.ChainID == s.ChainID &&
    RuleOrRaw(a.Gas, s.Gas, OrDefault(s.Gas, 0, DefaultGas)) &&
    RuleOrRaw(a.Fee, s.Fee, FeeRule(s.Fee, env)) &&
    (a.KeyDAO == s.KeyDAO || OpenIfNil(s.KeyDAO, env) == Ok(a.KeyDAO)) &&
    RuleOrRaw(a.Algo, s.Algo, OrDefault(s.Algo, "", DefaultAlgo)) &&
    RuleOrRaw(a.Mode, s.Mode, OrDefault(s.Mode, "", DefaultMode)) &&
    RuleOrRaw(a.Timeout, s.Timeout, OrDefault(s.Timeout, 0, DefaultTimeout)) &&
    RuleOrRaw(a.Level, s.Level, OrDefault(s.Level, "", DefaultLevel)) &&
    RuleOrRaw(a.MaxTxBytes, s.MaxTxBytes, OrDefault(s.MaxTxBytes, 0, DefaultMaxTxsBytes)) &&
    RuleOrRaw(a.GasAdjustment, s.GasAdjustment, GasAdjustmentRule(s.GasAdjustment)) &&
    a.Cached == s.Cached &&
    RuleOrRaw(a.TokenManager, s.TokenManager, OrDefault(s.TokenManager, Nil, DefaultTokenManager)) &&
    a.KeyManager == s.KeyManager &&
    RuleOrRaw(a.TxSizeLimit, s.TxSizeLimit, OrDefault(s.TxSizeLimit, 0, DefaultTxSizeLimit)) &&
    RuleOrRaw(a.Bech32AddressPrefix, s.Bech32AddressPrefix, PrefixRule(s.Bech32AddressPrefix, env)) &&
    RuleOrRaw(a.BIP44Path, s.BIP44Path, OrDefault(s.BIP44Path, "", FullPath)) &&
    a.BSNProject == s.BSNProject
  }

  /** Every rule is idempotent, so the defaulting pass gives the same result
      whether or not an option already applied a field's rule. */
  lemma DefaultsAbsorbRules(a: ClientConfig, s: ClientConfig, env: Env)
    requires PartlyNormalized(a, s, env)
    ensures Defaults(a, env) == Defaults(s, env)
  {
  }

  /** One option step keeps the loop's config a partly normalized copy of
      the raw supplied values. */
  lemma ApplyOptionNormalizes(c: ClientConfig, s: ClientConfig, o: Option, env: Env)
    requires PartlyNormalized(c, s, env)
    requires ApplyOption(c, o, env).Ok?
    ensures PartlyNormalized(ApplyOption(c, o, env).value, Assign(s, o), env)
  {
  }

  /** After the option loop, the config is a partly normalized copy of the
      values the caller supplied, the last option for each field winning. */
  lemma {:induction false} ApplyAllNormalizes(c: ClientConfig, s: ClientConfig, opts: seq<Option>, env: Env)
    requires PartlyNormalized(c, s, env)
    requires ApplyAll(c, opts, env).Ok?
    ensures PartlyNormalized(ApplyAll(c, opts, env).value, Supplied(s, opts), env)
    decreases |opts|
  {
    if opts != [] {
      ApplyOptionNormalizes(c, s, opts[0], env);
      ApplyAllNormalizes(ApplyOption(c, opts[0], env).value, Assign(s, opts[0]), opts[1..], env);
    }
  }

  /** What NewClientConfig returns, in terms of the raw supplied values: the
      default store's failure when some option is KeyDAOOption(nil) and the
      store cannot be opened (whatever the required values are), and
      otherwise the defaulting pass over the values the caller supplied,
      where the last option for a field wins and the rules each option
      applies on the way make no difference. */
  lemma BuildFromSupplied(uri: string, grpcAddr: string, chainID: string, opts: seq<Option>, env: Env)
    ensures Build(uri, grpcAddr, chainID, opts, env) ==
            if env.defaultStore.OpenFailed? && KeyDAOOption(Nil) in opts
            then Err(StoreOpenFailed(env.defaultStore.cause))
            else Defaults(Supplied(Seed(uri, grpcAddr, chainID), opts), env)
  {
    var seed := Seed(uri, grpcAddr, chainID);
    if ApplyAll(seed, opts, env).Ok? {
      ApplyAllNormalizes(seed, seed, opts, env);
      DefaultsAbsorbRules(ApplyAll(seed, opts, env).value, Supplied(seed, opts), env);
    }
  }

  /** The hard errors and their order: an option's error first (even when a
      required value is also missing), then an empty node URI, then an empty
      chain id. */
  lemma BuildRequiredFields(uri: string, grpcAddr: string, chainID: string, opts: seq<Option>, env: Env)
    ensures env.defaultStore.OpenFailed? && KeyDAOOption(Nil) in opts ==>
              Build(uri, grpcAddr, chainID, opts, env) == Err(StoreOpenFailed(env.defaultStore.cause))
    ensures !(env.defaultStore.OpenFailed? && KeyDAOOption(Nil) in opts) && uri == "" ==>
              Build(uri, grpcAddr, chainID, opts, env) == Err(MissingNodeURI) &&
              Message(Build(uri, grpcAddr, chainID, opts, env).error) == "nodeURI is required"
    ensures !(env.defaultStore.OpenFailed? && KeyDAOOption(Nil) in opts) && uri != "" && chainID == "" ==>
              Build(uri, grpcAddr, chainID, opts, env) == Err(MissingChainID) &&
              Message(Build(uri, grpcAddr, chainID, opts, env).error) == "chainID is required"
  {
  }

  /** Once an option has failed, no later option runs: appending options
      after a failing prefix does not change the outcome. */
  lemma FirstErrorStops(uri: string, grpcAddr: string, chainID: string, p: seq<Option>, q: seq<Option>, env: Env)
    requires ApplyAll(Seed(uri, grpcAddr, chainID), p, env).Err?
    ensures Build(uri, grpcAddr, chainID, p + q, env) == Build(uri, grpcAddr, chainID, p, env)
  {
    ApplyAllAppend(Seed(uri, grpcAddr, chainID), p, q, env);
  }

  /** Field by field, the built config: each numeric and string field is its
      built-in default when the supplied value is zero or empty (or no option
      set it) and the supplied value otherwise; the prefixes are the caller's
      only when complete; the fee is the caller's only when non-empty and
      valid; the identity, the cache flag and the key manager are exactly
      what was supplied. */
  lemma BuildFieldValues(uri: string, grpcAddr: string, chainID: string, opts: seq<Option>, env: Env)
    requires Build(uri, grpcAddr, chainID, opts, env).Ok?
    ensures var c := Build(uri, grpcAddr, chainID, opts, env).value;
            var s := Supplied(Seed(uri, grpcAddr, chainID), opts);
            c.NodeURI == uri && c.GRPCAddr == grpcAddr && c.ChainID == chainID &&
            c.Gas == (if s.Gas == 0 then 200000 else s.Gas) &&
            c.Timeout == (if s.Timeout == 0 then 5 else s.Timeout) &&
            c.MaxTxBytes == (if s.MaxTxBytes == 0 then 1073741824 else s.MaxTxBytes) &&
            c.TxSizeLimit == (if s.TxSizeLimit == 0 then 1048576 else s.TxSizeLimit) &&
            c.GasAdjustment == (if s.GasAdjustment <= 0.0 then 1.0 else s.GasAdjustment) &&
            c.Algo == (if s.Algo == "" then "secp256k1" else s.Algo) &&
            c.Mode == (if s.Mode == "" then Sync else s.Mode) &&
            c.Level == (if s.Level == "" then "info" else s.Level) &&
            c.BIP44Path == (if s.BIP44Path == "" then "44'/118'/0'/0/0" else s.BIP44Path) &&
            c.Fee == (if |s.Fee| > 0 && env.feeIsValid(s.Fee) then s.Fee else env.parsedDefaultFees) &&
            c.Bech32AddressPrefix == (if Complete(s.Bech32AddressPrefix) then s.Bech32AddressPrefix
                                      else env.prefixCfg) &&
            c.TokenManager == (if s.TokenManager == Nil then DefaultTokenManager else s.TokenManager) &&
            (s.KeyDAO != Nil ==> c.KeyDAO == s.KeyDAO) &&
            (s.KeyDAO == Nil ==> env.defaultStore.Opened? && c.KeyDAO == Ref(env.defaultStore.id)) &&
            c.BSNProject == s.BSNProject && c.Cached == s.Cached && c.KeyManager == s.KeyManager
  {
    BuildFromSupplied(uri, grpcAddr, chainID, opts, env);
    DefaultsFieldValues(Supplied(Seed(uri, grpcAddr, chainID), opts), env);
  }

  /** Field by field, a successful defaulting pass. */
  lemma DefaultsFieldValues(s: ClientConfig, env: Env)
    requires Defaults(s, env).Ok?
    ensures var c := Defaults(s, env).value;
            c.NodeURI == s.NodeURI && c.GRPCAddr == s.GRPCAddr && c.ChainID == s.ChainID &&
            c.Gas == (if s.Gas == 0 then 200000 else s.Gas) &&
            c.Timeout == (if s.Timeout == 0 then 5 else s.Timeout) &&
            c.MaxTxBytes == (if s.MaxTxBytes == 0 then 1073741824 else s.MaxTxBytes) &&
            c.TxSizeLimit == (if s.TxSizeLimit == 0 then 1048576 else s.TxSizeLimit) &&
            c.GasAdjustment == (if s.GasAdjustment <= 0.0 then 1.0 else s.GasAdjustment) &&
            c.Algo == (if s.Algo == "" then "secp256k1" else s.Algo) &&
            c.Mode == (if s.Mode == "" then Sync else s.Mode) &&
            c.Level == (if s.Level == "" then "info" else s.Level) &&
            c.BIP44Path == (if s.BIP44Path == "" then "44'/118'/0'/0/0" else s.BIP44Path) &&
            c.Fee == (if |s.Fee| > 0 && env.feeIsValid(s.Fee) then s.Fee else env.parsedDefaultFees) &&
            c.Bech32AddressPrefix == (if Complete(s.Bech32AddressPrefix) then s.Bech32AddressPrefix
                                      else env.prefixCfg) &&
            c.TokenManager == (if s.TokenManager == Nil then DefaultTokenManager else s.TokenManager) &&
            (s.KeyDAO != Nil ==> c.KeyDAO == s.KeyDAO) &&
            (s.KeyDAO == Nil ==> env.defaultStore.Opened? && c.KeyDAO == Ref(env.defaultStore.id)) &&
            c.BSNProject == s.BSNProject && c.Cached == s.Cached && c.KeyManager == s.KeyManager
  {
    assert FullPath == "44'/118'/0'/0/0";
  }

  /** A successful build is well formed whenever the defaults are. */
  lemma BuildWellFormed(uri: string, grpcAddr: string, chainID: string, opts: seq<Option>, env: Env)
    requires SoundDefaults(env)
    requires Build(uri, grpcAddr, chainID, opts, env).Ok?
    ensures WellFormed(Build(uri, grpcAddr, chainID, opts, env).value, env)
  {
  }

  /** Running the defaulting pass on a config it has already normalised
      changes nothing. */
  lemma DefaultsIdempotent(c: ClientConfig, env: Env)
    requires Defaults(c, env).Ok?
    ensures Defaults(Defaults(c, env).value, env) == Defaults(c, env)
  {
    var d := Defaults(c, env).value;
    assert PartlyNormalized(d, c, env);
    DefaultsAbsorbRules(d, c, env);
  }

  /** An option whose argument is its field's zero value (a nil store aside). */
  predicate StoresZero(o: Option)
  {
    o != KeyDAOOption(Nil) && Assign(ZeroConfig(), o) == ZeroConfig()
  }

  /** An option first in the list whose argument is its field's zero value
      (KeyDAOOption(nil) aside) builds the same config as leaving it out. A
      later zero-valued option still overrides an earlier non-zero one. */
  lemma ExplicitZeroIsUnset(uri: string, grpcAddr: string, chainID: string, o: Option,
                            opts: seq<Option>, env: Env)
    requires StoresZero(o)
    ensures Build(uri, grpcAddr, chainID, [o] + opts, env) == Build(uri, grpcAddr, chainID, opts, env)
  {
    var seed := Seed(uri, grpcAddr, chainID);
    assert Assign(seed, o) == seed;
    assert ([o] + opts)[1..] == opts;
    assert KeyDAOOption(Nil) in [o] + opts <==> KeyDAOOption(Nil) in opts;
    BuildFromSupplied(uri, grpcAddr, chainID, [o] + opts, env);
    BuildFromSupplied(uri, grpcAddr, chainID, opts, env);
  }

  /** When the default store can be opened, an explicit KeyDAOOption(nil)
      first in the list builds the same config as leaving the store unset:
      the defaulting pass opens the same store. */
  lemma ExplicitNilStoreIsUnset(uri: string, grpcAddr: string, chainID: string,
                                opts: seq<Option>, env: Env)
    requires env.defaultStore.Opened?
    ensures Build(uri, grpcAddr, chainID, [KeyDAOOption(Nil)] + opts, env) ==
            Build(uri, grpcAddr, chainID, opts, env)
  {
    var seed := Seed(uri, grpcAddr, chainID);
    assert Assign(seed, KeyDAOOption(Nil)) == seed;
    assert ([KeyDAOOption(Nil)] + opts)[1..] == opts;
    BuildFromSupplied(uri, grpcAddr, chainID, [KeyDAOOption(Nil)] + opts, env);
    BuildFromSupplied(uri, grpcAddr, chainID, opts, env);
  }

  /** The one exception: an explicit KeyDAOOption(nil) opens the default
      store while the options run, before the required values are checked,
      so when the store cannot be opened it changes which error is reported. */
  lemma ExplicitNilStoreFailsFirst(grpcAddr: string, chainID: string, env: Env)
    requires env.defaultStore.OpenFailed?
    ensures Build("", grpcAddr, chainID, [KeyDAOOption(Nil)], env) ==
            Err(StoreOpenFailed(env.defaultStore.cause))
    ensures Build("", grpcAddr, chainID, [], env) == Err(MissingNodeURI)
  {
    assert KeyDAOOption(Nil) in [KeyDAOOption(Nil)];
  }
}
