# Client configuration builder (types/config.go)

A Dafny model of how the SDK client builds its `ClientConfig`. `NewClientConfig`
seeds a config with the node URI, the gRPC address and the chain id. It then
calls the caller's `Option` closures in order on a pointer to that config and
stops at the first error. Finally `checkAndSetDefault` runs. That pass rejects
an empty node URI, then an empty chain id. Then it re-runs every option except
`CachedOption` and `KeyManagerOption` on its field's current value, so that an
unset field and an explicitly zero or empty one both end up at the same
built-in default. Any error returns
the zero `ClientConfig{}`.

Files and modules:

- `config_types.dfy`, module `ConfigTypes`: the `ClientConfig` record, the
  address-prefix and project-identity records, the default constants (gas
  200000, fee "4iris", timeout 5, level "info", max tx bytes 1073741824,
  algorithm "secp256k1", mode `Sync`, gas adjustment 1.0, tx size limit
  1048576, derivation path "44'/118'/0'/0/0"), the errors, and `Env`.
  `Env` holds what the builder consults but whose code is not part of this
  model: fee validity (a function value), the parsed default fee, the
  package variable `*PrefixCfg`, and the outcome of opening the default
  LevelDB key store.
- `options.dfy`, module `Options`: one `Option` constructor per `*Option`
  function; the per-field rules; `ApplyOption` (one closure call) and
  `ApplyAll` (the option loop). It also has a reference reading, `Supplied`,
  in which every field simply holds the argument of the last option for it.
- `config.dfy`, module `Config`: `Defaults` (checkAndSetDefault, field by
  field), `Build` (NewClientConfig as a function), the class `ConfigState`
  (the `cfg` variable the closures update in place, with one method per
  option), the method `NewClientConfig`, and the lemmas.

The central result is `BuildFromSupplied`. When some option is
`KeyDAOOption(nil)` and the default store cannot be opened, the builder fails
with the store error. Otherwise it returns the defaulting pass applied to the
raw values the caller supplied, with the last option for each field winning.
That pass also fails with the store error when the key store is still nil
and the default store cannot be opened. The
rules the options apply along the way make no difference, because every rule
is idempotent (`DefaultsAbsorbRules`).

Behaviour worth noting:

- `FeeOption` never fails. The error of `ParseDecCoins` on the default fee
  is discarded, so a malformed fee is never a construction error.
- `AlgoOption`, `ModeOption` and `LevelOption` accept any non-empty string.
  Only the empty string is replaced; nothing checks the value against a set
  of allowed values.
- An explicit `KeyDAOOption(nil)` is not the same as leaving the key store
  unset. It opens the default store while the options run, before the
  required values are checked. So when the store cannot be opened, it
  changes which error is reported (`ExplicitNilStoreFailsFirst`).

## Model

| member | source | states |
|---|---|---|
| `ConfigTypes.Seed` | types/config.go:90-94 | the starting config holds the three required values and is the zero config everywhere else |
| `Options.OrDefault` | types/config.go:197-255 | the numeric and string rule: the zero value becomes the default, any other value passes through, and a non-zero default gives a non-zero result |
| `Options.FeeRule` | types/config.go:171-180 | a nil, empty or invalid fee is replaced wholesale by the parsed default; a non-empty valid fee is kept; the result is valid whenever the default is |
| `Options.GasAdjustmentRule` | types/config.go:257-265 | a non-positive factor becomes 1.0, a positive one is kept; the result is always positive |
| `Options.PrefixRule` | types/config.go:301-313 | the two-step check is all or nothing: the caller's prefixes survive exactly when all six are non-empty, otherwise the whole record is the default |
| `Options.OpenIfNil` | types/config.go:182-195 | a nil store is replaced by the opened default store; the rule fails exactly when the store is nil and cannot be opened; a non-nil store is kept |
| `Options.ApplyOption` | types/config.go:169-333 | only `KeyDAOOption(nil)` with an unopenable store fails, and it fails with the store's error |
| `Options.ApplyOptionFrame` | types/config.go:169-333 | each closure changes no field but its own |
| `Options.ApplyOptionLocal` | types/config.go:169-333 | no closure reads the field it assigns: configs that differ only in that field give the same result |
| `Options.ApplyAll` | types/config.go:95-99 | the option loop fails exactly when the store cannot be opened and some option is `KeyDAOOption(nil)`; no option changes the node URI, gRPC address or chain id |
| `Options.ApplyAllAppend` | types/config.go:95-99 | running p then q equals running p + q; after a failure in p nothing in q runs |
| `Options.SameTargetLaterWins` | types/config.go:95-99 | of two options for the same field, the later one decides the field |
| `Options.SuppliedAppend` | types/config.go:95-99 | in the supplied values, the last option of the list is assigned last |
| `Options.AssignOverwrites` | types/config.go:95-99 | a later raw assignment to the same field overwrites an earlier one |
| `Config.Defaults` | types/config.go:107-167 | the pass fails exactly on an empty node URI, an empty chain id, or a nil store that cannot be opened, in that order of precedence, the last with the store's own error; on success the store is the given one or, if nil, the opened default store; it keeps the required values, the cache flag, the key manager and the project identity; with sound defaults its result is well formed |
| `Config.ConfigState.constructor` | types/config.go:90-94 | the mutable config starts as the seeded config |
| `Config.ConfigState.ApplyGas` | types/config.go:197-205 | assigns the gas by the zero-to-200000 rule and leaves every other field alone |
| `Config.ConfigState.ApplyFee` | types/config.go:171-180 | assigns the fee by the fee rule and leaves every other field alone |
| `Config.ConfigState.ApplyAlgo` | types/config.go:207-215 | assigns the algorithm by the empty-to-"secp256k1" rule and leaves every other field alone |
| `Config.ConfigState.ApplyKeyDAO` | types/config.go:182-195 | assigns the store, opening the default store for nil; on an open failure it returns the error and changes nothing |
| `Config.ConfigState.ApplyMode` | types/config.go:217-225 | assigns the broadcast mode by the empty-to-`Sync` rule and leaves every other field alone |
| `Config.ConfigState.ApplyTimeout` | types/config.go:227-235 | assigns the timeout by the zero-to-5 rule and leaves every other field alone |
| `Config.ConfigState.ApplyLevel` | types/config.go:237-245 | assigns the log level by the empty-to-"info" rule and leaves every other field alone |
| `Config.ConfigState.ApplyMaxTxBytes` | types/config.go:247-255 | assigns the maximum transaction size by the zero-to-1073741824 rule and leaves every other field alone |
| `Config.ConfigState.ApplyGasAdjustment` | types/config.go:257-265 | assigns the gas adjustment by the non-positive-to-1.0 rule and leaves every other field alone |
| `Config.ConfigState.ApplyCached` | types/config.go:267-272 | assigns the cache flag as given, false included |
| `Config.ConfigState.ApplyTokenManager` | types/config.go:274-282 | assigns the token manager, a nil one becoming the built-in manager |
| `Config.ConfigState.ApplyTxSizeLimit` | types/config.go:284-292 | assigns the transaction size limit by the zero-to-1048576 rule and leaves every other field alone |
| `Config.ConfigState.ApplyKeyManager` | types/config.go:294-299 | assigns the key manager as given, nil included |
| `Config.ConfigState.ApplyBech32AddressPrefix` | types/config.go:301-313 | assigns the caller's prefixes if all six are non-empty, and the default record otherwise |
| `Config.ConfigState.ApplyBIP44Path` | types/config.go:315-323 | assigns the derivation path, an empty one becoming "44'/118'/0'/0/0" |
| `Config.ConfigState.ApplyBSNProjectInfo` | types/config.go:325-333 | copies the three identity fields as given, empty strings included |
| `Config.ConfigState.Apply` | types/config.go:96 | calling an option's closure on the config does what `ApplyOption` says, and a failing option leaves the config unchanged |
| `Config.ConfigState.CheckAndSetDefault` | types/config.go:107-167 | the in-place sequence of required-field checks and option re-runs yields exactly the field-wise pass `Defaults`, or its error |
| `Config.NewClientConfig` | types/config.go:89-105 | the builder returns the zero config with the error whenever construction fails; on success the config keeps the three required values and, with sound defaults, is well formed |
| `Config.DefaultsAbsorbRules` | types/config.go:116-166 | every option rule is idempotent, so the defaulting pass gives the same result whether or not an option already applied a field's rule |
| `Config.ApplyOptionNormalizes` | types/config.go:95-99 | one option step keeps the loop's config a partly normalised copy of the raw supplied values |
| `Config.ApplyAllNormalizes` | types/config.go:95-99 | after the loop, the config is a partly normalised copy of the supplied values, the last option for each field winning |
| `Config.BuildFromSupplied` | types/config.go:89-167 | the build is the store error when some option is `KeyDAOOption(nil)` and the store cannot be opened, and otherwise the defaulting pass over the raw supplied values |
| `Config.BuildRequiredFields` | types/config.go:95-114 | an option's error comes first, even when a required value is missing; then "nodeURI is required", then "chainID is required", with those error texts |
| `Config.FirstErrorStops` | types/config.go:95-99 | once an option has failed, appending more options does not change the result |
| `Config.DefaultsFieldValues` | types/config.go:107-167 | field by field: gas 200000, timeout 5, max tx bytes 1073741824, tx size limit 1048576, gas adjustment 1.0, algorithm "secp256k1", mode `Sync`, level "info" and path "44'/118'/0'/0/0" when zero or empty, the given value otherwise; the fee and prefixes replaced wholesale; a given key store kept and a nil one replaced by the opened default store; the identity, cache flag and key manager untouched |
| `Config.BuildFieldValues` | types/config.go:89-167 | the same field values for the built config, key store included, in terms of the values the caller supplied, with unset meaning zero |
| `Config.BuildWellFormed` | types/config.go:107-167 | with a valid non-empty default fee and complete default prefixes, every built config has positive numbers, non-empty strings, a valid fee, complete prefixes and non-nil store and token manager |
| `Config.DefaultsIdempotent` | types/config.go:107-167 | running the defaulting pass on its own result changes nothing |
| `Config.ExplicitZeroIsUnset` | types/config.go:89-167 | an option placed first in the list whose argument is its field's zero value, `KeyDAOOption(nil)` excepted, builds the same config as leaving it out |
| `Config.ExplicitNilStoreIsUnset` | types/config.go:89-167 | when the default store can be opened, `KeyDAOOption(nil)` placed first in the list builds the same config as leaving the store unset |
| `Config.ExplicitNilStoreFailsFirst` | types/config.go:95-114 | with an unopenable store, an explicit `KeyDAOOption(nil)` reports the store error even when the node URI is empty, while leaving the store unset reports "nodeURI is required" |

## Left out

- client/grpc_client.go: the process-wide `sync.Once` connection and `grpc.Dial` are network I/O and global mutable state; `Token.GetRequestMetadata` only builds a three-entry map for the gRPC credentials interface.
- Opening the default key store (`os.ExpandEnv`, `store.NewLevelDB`): filesystem and environment I/O, modelled by one outcome in `Env`. Every opening within one build gets the same outcome. A second opening of the same path, possible when `KeyDAOOption(nil)` is given twice, is not distinguished from the first.
- `DecCoins`, `ParseDecCoins`, `IsValid`: not part of this model. Validity is a function value in `Env`, and the parsed "4iris" is an `Env` value. `Empty` is taken as length zero, so a nil and an empty fee both become `[]`.
- `GasAdjustment`: float64 is modelled as a real. A NaN factor passes the `<= 0` test in Go and is kept; the model has no NaN.
- `Options.GasAdjustmentRule`: states positivity for every input, which float64 does not guarantee for NaN (see above).
- `KeyDAO`, `TokenManager`, `KeyManager`: foreign interfaces, modelled as opaque references (`Ref`); `DefaultTokenManager{}` is one fixed reference. Typed nil interface values are not modelled.
- The contents of `PrefixCfg` and the value of `Sync` are defined in files that are not part of this model. `*PrefixCfg` is an `Env` value; `Sync` is taken to be "sync".
- Caller-written `Option` closures: only the closures the package's `*Option` functions return are modelled.
- `Timeout`: Go's `uint` is taken to be 64 bits wide.
- Error checks in `checkAndSetDefault` after options other than `KeyDAOOption`: those options never fail, so `Config.ConfigState.CheckAndSetDefault` only branches on the key-store error.
- Error values: errors are compared by kind (`ConfigError`); `Message` gives the source's texts.
