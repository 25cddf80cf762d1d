# solar: configuration resolution of the command line

This project models the configuration layer of solar's command line (`cli.go`), the tool
that deploys compiled Solidity contracts to an sbit (UTXO) or an Ethereum-style RPC node
and records their addresses in a per-environment contracts repository. The layer turns the
parsed flag values into decisions:

- which chain platform is in use (`RPCPlatform`);
- which deployment backend to construct (`Deployer`), with a precedence opposite to
  `RPCPlatform` when both endpoints are set;
- which repository file to open (`--repo`, or `solar.<env>.json` with `env` defaulting to
  `development`), opened once and cached;
- the compiler options (`--allow-paths` split on commas, the working directory when it is
  empty; `NoOptimize` the negation of `--optimize`);
- whether bytes are printed with a prefix (switched on by an Ethereum endpoint);
- the resolver handed to the placeholder expander (contract name to stored address).

Files:

- `wrappers.dfy` — `Option` and `Result`; every `log.Fatal`, `os.Exit` and `panic` of the
  source is a `Failure` carrying a `Fatal` value.
- `gostrings.dfy` — reference definitions of Go's `strings.Split` and `strings.Join` for a
  one-character separator, with both round trips and the piece count proved.
- `deployer.dfy` — `Backend`, the two implementations behind the `deployer.Deployer`
  interface.
- `cli.dfy` — module `Solar`: the `Config` record of flag values, the pure decisions, and the
  `SolarCLI` class whose methods fill the `repo` and `reporter` caches in place, as the
  `sync.Once` fields of `solarCLI` do.

Calls into code outside this model are parameters: `validURI` for `url.ParseRequestURI`,
`open` for `contract.OpenContractsRepository`, `newSbit` / `newEth` for the two backend
constructors (each returning Go's `(value, error)` pair as `Constructed`), `getwd` for
`os.Getwd`, `newRPC` for `sbit.NewRPC`, `render` for `Address.String`, `expand` for
`varstr.Expand`. The global byte-format setting of the contract package is the
`BytesFormat` object.

Two behaviours of the code worth knowing:

- Both endpoints may be set at once. `RPCPlatform` then reports sbit (cli.go:64-68), while
  `Deployer` builds the Ethereum backend, because its eth branch runs second and overwrites
  `deployer` and `err` (cli.go:160-176), and the byte format is prefixed (cli.go:149-151).
  `PlatformAndBackendPrecedence` states the disagreement.
- With an empty `--allow-paths`, the code splits the working directory on commas as well,
  so the result is `[cwd]` only when the directory name has no comma
  (`SolcOptionsSplitsWorkingDirectory` shows `/a,b` becoming two paths).

## Model

| member | source | states |
|---|---|---|
| `Solar.RPCPlatform` | cli.go:59-69 | fails with the unspecified-RPC error exactly when both endpoints are empty; is sbit exactly when the sbit endpoint is set (even with eth set); is Ethereum exactly when only eth is set |
| `Solar.RepoPath` | cli.go:105-110 | a non-empty `--repo` is the path verbatim; otherwise the path is `solar.` + env + `.json` (prefix, env segment and suffix stated separately); never empty |
| `Solar.RepoPathPerEnv` | cli.go:109 | without `--repo`, two configurations share a repository file if and only if they name the same environment |
| `Solar.DefaultRepoPath` | cli.go:27 | with no `--repo` and the default environment the file is `solar.development.json` |
| `Solar.CachedRepository` | cli.go:103-122 | a cached repository is returned as is; otherwise the result succeeds iff opening `RepoPath` succeeds, and an open failure is the fatal repo-open error naming the path and cause |
| `Solar.CachedRepositoryStable` | cli.go:104-121 | once a repository has been obtained, every later call returns that same repository whatever the opener would return |
| `Solar.SolarCLI.constructor` | cli.go:42-53 | a fresh CLI holds the flag values and has no repository and no reporter yet |
| `Solar.SolarCLI.ContractsRepository` | cli.go:103-122 | returns the cached-or-opened repository; caches it on success; never replaces a cached one |
| `Solar.SolarCLI.Reporter` | cli.go:71-81 | the first call builds a fresh reporter and starts its worker; every later call returns the same object |
| `Solar.Finish` | cli.go:178-186 | a nil deployer is the unspecified-RPC error, checked before a non-nil constructor error, which is the NewDeployer error carrying it; success exactly when the deployer is set and there is no error |
| `Solar.DeployerChoice` | cli.go:154-187 | no endpoint is fatal; the first failing stage (sbit URL, repository open, eth URL, repository open) gives its error; past them, success exactly when the last constructor run (eth if set, else sbit) returned an instance and no error, with that instance; a nil instance is the unspecified-RPC error and an instance with an error the NewDeployer error; a success is Ethereum iff eth is set, sbit iff only sbit is set |
| `Solar.DeployerBothSetPicksEth` | cli.go:160-176 | with both endpoints set and valid, a successful eth constructor decides the result, whatever the sbit constructor returned |
| `Solar.DeployerSbitOnly` | cli.go:160-167 | with only sbit set and valid, a successful sbit constructor yields the sbit backend |
| `Solar.DeployerEthOnly` | cli.go:169-176 | with only eth set and valid, a successful eth constructor yields the eth backend |
| `Solar.DeployerInvalidURLFatal` | cli.go:162-173 | any set endpoint that fails URL parsing makes backend selection fail |
| `Solar.PlatformAndBackendPrecedence` | cli.go:64-68 | when a backend is built, RPCPlatform and the backend disagree if and only if both endpoints are set |
| `Solar.SolarCLI.Deployer` | cli.go:154-187 | the sequential assignments yield exactly `DeployerChoice` over the cached-or-opened repository; the repository is opened only when a branch reaches the constructor call |
| `Solar.SbitRPC` | cli.go:124-132 | succeeds with the client iff the RPC constructor accepts the sbit URL; otherwise the invalid-sbit-URL error naming it |
| `Solar.SolcOptions` | cli.go:83-100 | fails only when allow-paths is empty and the working directory is unavailable; `noOptimize == !optimize`; the paths rejoined with commas give back the flag (or the working directory), contain no comma, number one more than its commas; a comma-free working directory gives exactly `[cwd]` |
| `Solar.SolcOptionsDefaults` | cli.go:31-32 | with the default flags the optimiser is on and a comma-free working directory is the only allowed path |
| `Solar.SolcOptionsAllowPathsRoundTrip` | cli.go:94 | any non-empty list of comma-free paths written as the flag comes back as exactly that list |
| `Solar.SolcOptionsSplitsWorkingDirectory` | cli.go:85-94 | an empty flag with working directory `/a,b` gives the two paths `/a` and `b` |
| `GoStrings.Split` | cli.go:94 | `strings.Split` always yields at least one piece |
| `GoStrings.JoinSplit` | cli.go:94 | joining the pieces with the separator gives the input back |
| `GoStrings.SplitJoin` | cli.go:94 | splitting a join of one or more separator-free parts gives the parts back |
| `GoStrings.SplitCount` | cli.go:94 | the number of pieces is the number of separators plus one |
| `GoStrings.SplitSepFree` | cli.go:94 | no piece contains the separator |
| `GoStrings.SplitNoSep` | cli.go:91-94 | a string without the separator is a single piece, itself |
| `Solar.Repository.Get` | cli.go:139 | found iff the name is bound, and then the bound record |
| `Solar.ResolveAddress` | cli.go:138-145 | succeeds iff the name is in the repository, with the rendering of its stored address; otherwise the invalid-address-expansion error naming the key |
| `Solar.ResolveUnaffectedByOtherNames` | cli.go:139-144 | binding another name leaves the resolution of a name unchanged |
| `Solar.SolarCLI.ExpandJSONParams` | cli.go:135-146 | a repository-open failure is returned; otherwise the expander runs on the parameters with the resolver over the cached repository |
| `Solar.SolarCLI.ConfigureBytesOutputFormat` | cli.go:148-152 | an eth endpoint turns prefixed output on; without one the setting is left as it was |

## Left out

- Flag and environment-variable parsing (kingpin) and `Main`'s task dispatch: the parsed
  values are the `Config` record; the defaults appear as `DefaultEnv`, `DefaultOptimize`,
  `DefaultAllowPaths`.
- The reporter's worker goroutine and its `events` channel: only the once-initialisation and
  the fact that the worker is started are modelled (`Events.workerStarted`).
- `varstr.Expand`'s scanning of `$Name` / `${Name}`: a parameter; only the resolver is modelled.
- The repository itself (opening, parsing, saving), the two backends and their RPC clients,
  URL parsing, `os.Getwd` and `Address.String`: code outside this model, taken as parameters.
  The repository is reduced to its name-to-address lookup.
- `Address.String` depends on the global byte-format setting; the `render` parameter is not
  tied to `BytesFormat`.
- Solar.SolarCLI.ExpandJSONParams: the expander is a parameter, so the model does not promise
  that a resolver failure on an unknown name fails the whole expansion; in the program the
  resolver's panic unwinds through `varstr.Expand` and ends the process. Only the resolver
  itself (`ResolveAddress`) states the unknown-name error.
- Concurrency of `sync.Once`: the model is sequential, so the mutual exclusion `repoOnce` and
  `reporterOnce` give concurrent callers is not captured; each cache is filled at most once
  along any single sequence of calls.
- Process termination: each fatal path returns a `Failure`. On a failed open the model leaves
  the cache empty; in the program the `sync.Once` is then spent, which is unobservable
  because the process exits.
- Messages written to stdout and stderr by the fatal paths: only their kind and the URL, path
  or key they name are kept.
- `solarCLI.depoyer` and `deployerOnce`: declared in the program but unused by `Deployer()`,
  which builds a new backend on every call; the model has no such field.
- Whether a failing backend constructor leaves a nil interface or a typed nil pointer depends
  on constructor signatures outside this model; `Constructed` carries both halves of the pair
  and the model applies the program's nil check, then its error check, to them.
- `deployer.Options` (including its arbitrary-precision `GasPrice`): no logic of this layer
  reads it; it is passed through to the backends.
- The Deployer interface's `CreateContract` / `ConfirmContract` / `Mine` behaviour lives in
  the backend packages, outside this model.
