/**
 * cli.go: how the solar command line turns its flag values into the chain platform, the
 * deployment backend, the contracts repository path, the compiler options and the byte
 * output format, and how it caches the repository and the event reporter.
 *
 * Calls into packages this model does not contain (url.ParseRequestURI, os.Getwd,
 * contract.OpenContractsRepository, sbit.NewDeployer, eth.NewDeployer, Address.String,
 * varstr.Expand) are parameters of the members that make them.
 */
module Solar {
  import opened Wrappers
  import opened GoStrings
  import opened Deployers

  /** The parsed flag values; in the program they are package-level variables set by the flag parser. */
  datatype Config = Config(
    sbitRPC: string,     // --sbit_rpc / SBIT_RPC
    sbitSender: string,  // --sbit_sender / SBIT_SENDER
    ethRPC: string,      // --eth_rpc / ETH_RPC
    env: string,         // --env / SOLAR_ENV
    repo: string,        // --repo / SOLAR_REPO
    optimize: bool,      // --optimize
    allowPaths: string)  // --allow-paths

  const DefaultEnv: string := "development"
  const DefaultOptimize: bool := true
  const DefaultAllowPaths: string := ""

  /** The chain platform; RPCSbit is 0 and RPCEthereum is 1 in the program. */
  datatype Platform = RPCSbit | RPCEthereum

  /**
   * The errors of the configuration layer. All but SolcOptionsError end the process in the
   * program (log.Fatal, os.Exit, panic); SolcOptionsError is returned to the caller.
   */
  datatype Fatal =
    | UnspecifiedRPC                              // errorUnspecifiedRPC
    | InvalidRPCURL(url: string)                  // "Invalid RPC url"
    | RepoOpenError(path: string, cause: string)  // "error opening contracts repo file"
    | NewDeployerError(cause: string)             // "NewDeployer error"
    | SolcOptionsError(cause: string)             // errors.Wrap(err, "solc options")
    | InvalidAddressExpansion(key: string)        // the resolver's panic
    | InvalidSbitRPCURL(url: string)              // "Invalid SBIT RPC URL:"

  /** A chain address as raw bytes; its text form is rendered by the contract package. */
  type Address = seq<bv8>

  datatype DeployedContract = DeployedContract(address: Address)

  /** The contracts repository as the lookup the resolver uses: contract name to deployment record. */
  datatype Repository = Repository(contracts: map<string, DeployedContract>) {
    /** repo.Get(name), Go's (contract, found) pair as an Option. */
    function Get(name: string): (r: Option<DeployedContract>)
      ensures r.Some? <==> name in contracts
      ensures r.Some? ==> r.value == contracts[name]
    {
      if name in contracts then Some(contracts[name]) else None
    }
  }

  /** What a backend constructor returns: Go's (deployer, error) pair, either half possibly nil. */
  datatype Constructed = Constructed(instance: Option<Instance>, err: Option<string>)

  datatype CompilerOptions = CompilerOptions(noOptimize: bool, allowPaths: seq<string>)

  // ---------------------------------------------------------------------------------------
  // Platform choice

  /** solarCLI.RPCPlatform: sbit wins whenever its endpoint is set; no endpoint is fatal. */
  function RPCPlatform(cfg: Config): (r: Result<Platform, Fatal>)
    ensures r.Failure? <==> cfg.sbitRPC == "" && cfg.ethRPC == ""
    ensures r.Failure? ==> r.error == UnspecifiedRPC
    ensures r == Success(RPCSbit) <==> cfg.sbitRPC != ""
    ensures r == Success(RPCEthereum) <==> cfg.sbitRPC == "" && cfg.ethRPC != ""
  {
    if cfg.sbitRPC == "" && cfg.ethRPC == "" then Failure(UnspecifiedRPC)
    else if cfg.sbitRPC != "" then Success(RPCSbit)
    else Success(RPCEthereum)
  }

  // ---------------------------------------------------------------------------------------
  // Repository path and the once-opened repository

  /** The repository file: the --repo flag verbatim, otherwise solar.<env>.json. */
  function RepoPath(cfg: Config): (p: string)
    ensures |p| > 0
    ensures cfg.repo != "" ==> p == cfg.repo
    ensures cfg.repo == "" ==>
      |p| == |cfg.env| + 11 && p[..6] == "solar." && p[6..|p| - 5] == cfg.env && p[|p| - 5..] == ".json"
  {
    if cfg.repo != "" then cfg.repo else "solar." + cfg.env + ".json"
  }

  /** Without --repo, each environment has its own repository file and the file names its environment. */
  lemma RepoPathPerEnv(c1: Config, c2: Config)
    requires c1.repo == "" && c2.repo == ""
    ensures RepoPath(c1) == RepoPath(c2) <==> c1.env == c2.env
  {
  }

  /** With no --repo and the default environment the file is solar.development.json. */
  lemma DefaultRepoPath(cfg: Config)
    requires cfg.repo == "" && cfg.env == DefaultEnv
    ensures RepoPath(cfg) == "solar.development.json"
  {
  }

  /**
   * What solarCLI.ContractsRepository yields given the current cache: the cached repository
   * if there is one, otherwise the result of opening RepoPath(cfg), a failure being fatal.
   */
  function CachedRepository(cache: Option<Repository>, cfg: Config, open: string -> Result<Repository, string>)
    : (r: Result<Repository, Fatal>)
    ensures cache.Some? ==> r == Success(cache.value)
    ensures cache.None? ==> (r.Success? <==> open(RepoPath(cfg)).Success?)
    ensures cache.None? && r.Success? ==> r.value == open(RepoPath(cfg)).value
    ensures r.Failure? ==> r.error == RepoOpenError(RepoPath(cfg), open(RepoPath(cfg)).error)
  {
    match cache
    case Some(repo) => Success(repo)
    case None =>
      var path := RepoPath(cfg);
      match open(path)
      case Success(repo) => Success(repo)
      case Failure(cause) => Failure(RepoOpenError(path, cause))
  }

  /** Once a repository is cached, later calls return it whatever the opener would now return. */
  lemma CachedRepositoryStable(cache: Option<Repository>, cfg: Config,
                               open1: string -> Result<Repository, string>,
                               open2: string -> Result<Repository, string>)
    requires CachedRepository(cache, cfg, open1).Success?
    ensures CachedRepository(Some(CachedRepository(cache, cfg, open1).value), cfg, open2)
            == CachedRepository(cache, cfg, open1)
  {
  }

  // ---------------------------------------------------------------------------------------
  // Backend choice

  /** The interface value a constructor's result puts into the `deployer` local. */
  function Tagged(make: Instance -> Backend, built: Constructed): Option<Backend>
  {
    match built.instance
    case Some(i) => Some(make(i))
    case None => None
  }

  /** The checks after both branches: a nil deployer, then a non-nil error, is fatal. */
  function Finish(deployer: Option<Backend>, err: Option<string>): (r: Result<Backend, Fatal>)
    ensures r.Success? <==> deployer.Some? && err.None?
    ensures r.Success? ==> r.value == deployer.value
    ensures deployer.None? ==> r == Failure(UnspecifiedRPC)
    ensures deployer.Some? && err.Some? ==> r == Failure(NewDeployerError(err.value))
  {
    if deployer.None? then Failure(UnspecifiedRPC)
    else if err.Some? then Failure(NewDeployerError(err.value))
    else Success(deployer.value)
  }

  /**
   * The outcome of solarCLI.Deployer, stated by cases in the order the program meets them:
   * an unparsable sbit URL, then the repository opened for the sbit constructor, then an
   * unparsable eth URL, then the repository opened for the eth constructor. When both
   * endpoints are set the eth constructor's result overwrites the sbit one.
   */
  function DeployerChoice(cfg: Config, validURI: string -> bool, repo: Result<Repository, Fatal>,
                          newSbit: (string, Repository, string) -> Constructed,
                          newEth: (string, Repository) -> Constructed): (r: Result<Backend, Fatal>)
    ensures cfg.sbitRPC == "" && cfg.ethRPC == "" ==> r == Failure(UnspecifiedRPC)
    ensures cfg.sbitRPC != "" && !validURI(cfg.sbitRPC) ==> r == Failure(InvalidRPCURL(cfg.sbitRPC))
    ensures r.Success? ==>
      && repo.Success?
      && (cfg.sbitRPC != "" ==> validURI(cfg.sbitRPC))
      && (cfg.ethRPC != "" ==> validURI(cfg.ethRPC))
      && (r.value.EthDeployer? <==> cfg.ethRPC != "")
      && (r.value.SbitDeployer? <==> cfg.ethRPC == "" && cfg.sbitRPC != "")
    // the error that stops each earlier stage
    ensures cfg.sbitRPC != "" && validURI(cfg.sbitRPC) && repo.Failure? ==> r == Failure(repo.error)
    ensures cfg.ethRPC != "" && !validURI(cfg.ethRPC) && (cfg.sbitRPC == "" || (validURI(cfg.sbitRPC) && repo.Success?))
            ==> r == Failure(InvalidRPCURL(cfg.ethRPC))
    ensures cfg.sbitRPC == "" && cfg.ethRPC != "" && validURI(cfg.ethRPC) && repo.Failure? ==> r == Failure(repo.error)
    // past those stages, the last constructor run decides
    ensures (cfg.sbitRPC != "" || cfg.ethRPC != "") && repo.Success?
            && (cfg.sbitRPC != "" ==> validURI(cfg.sbitRPC)) && (cfg.ethRPC != "" ==> validURI(cfg.ethRPC)) ==>
      var built := if cfg.ethRPC != "" then newEth(cfg.ethRPC, repo.value)
                   else newSbit(cfg.sbitRPC, repo.value, cfg.sbitSender);
      && (r.Success? <==> built.instance.Some? && built.err.None?)
      && (r.Success? ==> r.value.instance == built.instance.value)
      && (built.instance.None? ==> r == Failure(UnspecifiedRPC))
      && (built.instance.Some? && built.err.Some? ==> r == Failure(NewDeployerError(built.err.value)))
  {
    if cfg.sbitRPC != "" && !validURI(cfg.sbitRPC) then Failure(InvalidRPCURL(cfg.sbitRPC))
    else if cfg.sbitRPC != "" && repo.Failure? then Failure(repo.error)
    else if cfg.ethRPC != "" && !validURI(cfg.ethRPC) then Failure(InvalidRPCURL(cfg.ethRPC))
    else if cfg.ethRPC != "" && repo.Failure? then Failure(repo.error)
    else if cfg.ethRPC != "" then
      var built := newEth(cfg.ethRPC, repo.value);
      Finish(Tagged((i: Instance) => EthDeployer(i), built), built.err)
    else if cfg.sbitRPC != "" then
      var built := newSbit(cfg.sbitRPC, repo.value, cfg.sbitSender);
      Finish(Tagged((i: Instance) => SbitDeployer(i), built), built.err)
    else Failure(UnspecifiedRPC)
  }

  /**
   * With both endpoints valid and the repository open, the eth backend is the result, whatever
   * the sbit constructor returned (its error too is overwritten).
   */
  lemma DeployerBothSetPicksEth(cfg: Config, validURI: string -> bool, repo: Repository,
                                newSbit: (string, Repository, string) -> Constructed,
                                newEth: (string, Repository) -> Constructed, i: Instance)
    requires cfg.sbitRPC != "" && cfg.ethRPC != ""
    requires validURI(cfg.sbitRPC) && validURI(cfg.ethRPC)
    requires newEth(cfg.ethRPC, repo) == Constructed(Some(i), None)
    ensures DeployerChoice(cfg, validURI, Success(repo), newSbit, newEth) == Success(EthDeployer(i))
  {
  }

  /** With only the sbit endpoint set, a successful sbit constructor gives the sbit backend. */
  lemma DeployerSbitOnly(cfg: Config, validURI: string -> bool, repo: Repository,
                         newSbit: (string, Repository, string) -> Constructed,
                         newEth: (string, Repository) -> Constructed, i: Instance)
    requires cfg.sbitRPC != "" && cfg.ethRPC == "" && validURI(cfg.sbitRPC)
    requires newSbit(cfg.sbitRPC, repo, cfg.sbitSender) == Constructed(Some(i), None)
    ensures DeployerChoice(cfg, validURI, Success(repo), newSbit, newEth) == Success(SbitDeployer(i))
  {
  }

  /** With only the eth endpoint set, a successful eth constructor gives the eth backend. */
  lemma DeployerEthOnly(cfg: Config, validURI: string -> bool, repo: Repository,
                        newSbit: (string, Repository, string) -> Constructed,
                        newEth: (string, Repository) -> Constructed, i: Instance)
    requires cfg.sbitRPC == "" && cfg.ethRPC != "" && validURI(cfg.ethRPC)
    requires newEth(cfg.ethRPC, repo) == Constructed(Some(i), None)
    ensures DeployerChoice(cfg, validURI, Success(repo), newSbit, newEth) == Success(EthDeployer(i))
  {
  }

  /** Any endpoint that is set but fails URL parsing makes backend selection fatal. */
  lemma DeployerInvalidURLFatal(cfg: Config, validURI: string -> bool, repo: Result<Repository, Fatal>,
                                newSbit: (string, Repository, string) -> Constructed,
                                newEth: (string, Repository) -> Constructed)
    requires (cfg.sbitRPC != "" && !validURI(cfg.sbitRPC)) || (cfg.ethRPC != "" && !validURI(cfg.ethRPC))
    ensures DeployerChoice(cfg, validURI, repo, newSbit, newEth).Failure?
  {
  }

  /**
   * The two precedences disagree exactly when both endpoints are set: RPCPlatform reports sbit
   * while the backend built is the eth one. With one endpoint set they agree.
   */
  lemma PlatformAndBackendPrecedence(cfg: Config, validURI: string -> bool, repo: Result<Repository, Fatal>,
                                     newSbit: (string, Repository, string) -> Constructed,
                                     newEth: (string, Repository) -> Constructed)
    requires DeployerChoice(cfg, validURI, repo, newSbit, newEth).Success?
    ensures RPCPlatform(cfg).Success?
    ensures var b := DeployerChoice(cfg, validURI, repo, newSbit, newEth).value;
      (RPCPlatform(cfg).value == RPCSbit) != b.SbitDeployer?
      <==> cfg.sbitRPC != "" && cfg.ethRPC != ""
  {
  }

  /** solarCLI.SbitRPC: the sbit RPC client for the configured URL; a constructor error is fatal. */
  function SbitRPC<Client>(cfg: Config, newRPC: string -> Result<Client, string>): (r: Result<Client, Fatal>)
    ensures r.Success? <==> newRPC(cfg.sbitRPC).Success?
    ensures r.Success? ==> r.value == newRPC(cfg.sbitRPC).value
    ensures r.Failure? ==> r.error == InvalidSbitRPCURL(cfg.sbitRPC)
  {
    match newRPC(cfg.sbitRPC)
    case Success(client) => Success(client)
    case Failure(_) => Failure(InvalidSbitRPCURL(cfg.sbitRPC))
  }

  // ---------------------------------------------------------------------------------------
  // Compiler options

  /**
   * solarCLI.SolcOptions: the allow-paths flag (or, when it is empty, the working directory)
   * split on commas, and the optimise flag inverted. Only a failing os.Getwd is an error.
   */
  function SolcOptions(cfg: Config, getwd: Result<string, string>): (r: Result<CompilerOptions, Fatal>)
    ensures r.Failure? <==> cfg.allowPaths == "" && getwd.Failure?
    ensures r.Failure? ==> r.error == SolcOptionsError(getwd.error)
    ensures r.Success? ==> r.value.noOptimize == !cfg.optimize
    ensures r.Success? && cfg.allowPaths != "" ==>
      && Join(r.value.allowPaths, ',') == cfg.allowPaths
      && SepFree(r.value.allowPaths, ',')
      && |r.value.allowPaths| == multiset(cfg.allowPaths)[','] + 1
    ensures r.Success? && cfg.allowPaths == "" ==>
      && Join(r.value.allowPaths, ',') == getwd.value
      && SepFree(r.value.allowPaths, ',')
    ensures cfg.allowPaths == "" && getwd.Success? && ',' !in getwd.value ==>
      r == Success(CompilerOptions(!cfg.optimize, [getwd.value]))
  {
    if cfg.allowPaths == "" && getwd.Failure? then Failure(SolcOptionsError(getwd.error))
    else
      var source := if cfg.allowPaths == "" then getwd.value else cfg.allowPaths;
      JoinSplit(source, ',');
      SplitSepFree(source, ',');
      SplitCount(source, ',');
      assert ',' !in source ==> Split(source, ',') == [source] by {
        if ',' !in source { SplitNoSep(source, ','); }
      }
      Success(CompilerOptions(!cfg.optimize, Split(source, ',')))
  }

  /** The split is the only one with that join: distinct allow-path lists give distinct options. */
  lemma SolcOptionsAllowPathsRoundTrip(cfg: Config, getwd: Result<string, string>, paths: seq<string>)
    requires |paths| >= 1 && SepFree(paths, ',') && cfg.allowPaths == Join(paths, ',') && cfg.allowPaths != ""
    ensures SolcOptions(cfg, getwd) == Success(CompilerOptions(!cfg.optimize, paths))
  {
    SplitJoin(paths, ',');
  }

  /** With the default --optimize and --allow-paths, the optimiser is on and the comma-free working directory is the one allowed path. */
  lemma SolcOptionsDefaults(cfg: Config, cwd: string)
    requires cfg.optimize == DefaultOptimize && cfg.allowPaths == DefaultAllowPaths && ',' !in cwd
    ensures SolcOptions(cfg, Success(cwd)) == Success(CompilerOptions(false, [cwd]))
  {
  }

  /** The working directory is split too: a directory name holding a comma becomes two allow-paths. */
  lemma SolcOptionsSplitsWorkingDirectory(cfg: Config)
    requires cfg.allowPaths == ""
    ensures SolcOptions(cfg, Success("/a,b")) == Success(CompilerOptions(!cfg.optimize, ["/a", "b"]))
  {
    SplitJoin(["/a", "b"], ',');
    assert Join(["/a", "b"], ',') == "/a,b";
  }

  // ---------------------------------------------------------------------------------------
  // Placeholder resolution

  /** The closure passed to varstr.Expand: a contract name to its stored address text. */
  function ResolveAddress(repo: Repository, key: string, render: Address -> string): (r: Result<string, Fatal>)
    ensures r.Success? <==> key in repo.contracts
    ensures r.Success? ==> r.value == render(repo.contracts[key].address)
    ensures r.Failure? ==> r.error == InvalidAddressExpansion(key)
  {
    match repo.Get(key)
    case Some(contract) => Success(render(contract.address))
    case None => Failure(InvalidAddressExpansion(key))
  }

  /** The resolver as the function value varstr.Expand receives. */
  function Resolver(repo: Repository, render: Address -> string): string -> Result<string, Fatal>
  {
    key => ResolveAddress(repo, key, render)
  }

  /** Adding a record for another name never changes how a name already present resolves. */
  lemma ResolveUnaffectedByOtherNames(repo: Repository, key: string, other: string,
                                      d: DeployedContract, render: Address -> string)
    requires other != key
    ensures ResolveAddress(Repository(repo.contracts[other := d]), key, render)
            == ResolveAddress(repo, key, render)
  {
  }

  // ---------------------------------------------------------------------------------------
  // Process-wide state

  /** The contract package's global byte-output setting (SetFormatBytesWithPrefix). */
  class BytesFormat {
    var withPrefix: bool

    constructor (withPrefix: bool)
      ensures this.withPrefix == withPrefix
    {
      this.withPrefix := withPrefix;
    }
  }

  /** The events reporter; its channel and worker body live outside this model. */
  class Events {
    var workerStarted: bool

    constructor ()
      ensures !workerStarted
    {
      workerStarted := false;
    }
  }

  /**
   * solarCLI: the flag values and the lazily filled caches. An empty Option or a null reporter
   * is a sync.Once that has not yet run.
   */
  class SolarCLI {
    const cfg: Config
    var repo: Option<Repository>
    var reporter: Events?

    constructor (cfg: Config)
      ensures this.cfg == cfg && repo == None && reporter == null
    {
      this.cfg := cfg;
      repo := None;
      reporter := null;
    }

    /** Reporter: builds the reporter and starts its worker on the first call only. */
    method Reporter() returns (r: Events)
      modifies this`reporter
      ensures reporter == r
      ensures old(reporter) != null ==> r == old(reporter)
      ensures old(reporter) == null ==> fresh(r) && r.workerStarted
    {
      if reporter == null {
        var e := new Events();
        e.workerStarted := true;  // go c.reporter.Start()
        reporter := e;
      }
      r := reporter;
    }

    /** ContractsRepository: opens RepoPath(cfg) on the first successful call, then returns the cache. */
    method ContractsRepository(open: string -> Result<Repository, string>) returns (r: Result<Repository, Fatal>)
      modifies this`repo
      ensures r == CachedRepository(old(repo), cfg, open)
      ensures repo == if r.Success? then Some(r.value) else old(repo)
      ensures old(repo).Some? ==> repo == old(repo)
    {
      if repo.None? {
        var path := RepoPath(cfg);
        var got := open(path);
        if got.Failure? {
          return Failure(RepoOpenError(path, got.error));
        }
        repo := Some(got.value);
      }
      r := Success(repo.value);
    }

    /** ExpandJSONParams: expands the parameters against the cached repository's addresses. */
    method ExpandJSONParams(jsonParams: string, open: string -> Result<Repository, string>,
                            render: Address -> string,
                            expand: (string, string -> Result<string, Fatal>) -> Result<string, Fatal>)
      returns (r: Result<string, Fatal>)
      modifies this`repo
      ensures var cached := CachedRepository(old(repo), cfg, open);
        r == if cached.Failure? then Failure(cached.error) else expand(jsonParams, Resolver(cached.value, render))
      ensures repo == if CachedRepository(old(repo), cfg, open).Success?
                      then Some(CachedRepository(old(repo), cfg, open).value) else old(repo)
    {
      var got := ContractsRepository(open);
      if got.Failure? {
        return Failure(got.error);
      }
      r := expand(jsonParams, Resolver(got.value, render));
    }

    /** ConfigureBytesOutputFormat: an eth endpoint switches prefixed byte output on. */
    method ConfigureBytesOutputFormat(format: BytesFormat)
      modifies format
      ensures cfg.ethRPC != "" ==> format.withPrefix
      ensures cfg.ethRPC == "" ==> format.withPrefix == old(format.withPrefix)
    {
      if cfg.ethRPC != "" {
        format.withPrefix := true;
      }
    }

    /**
     * Deployer: the sbit branch, then the eth branch, each assigning the `deployer` and `err`
     * locals, so the eth branch overwrites the sbit one; then the nil and error checks.
     * The deployerOnce cache field is not used by this method, so every call constructs anew.
     */
    method Deployer(validURI: string -> bool, open: string -> Result<Repository, string>,
                    newSbit: (string, Repository, string) -> Constructed,
                    newEth: (string, Repository) -> Constructed)
      returns (r: Result<Backend, Fatal>)
      modifies this`repo
      ensures r == DeployerChoice(cfg, validURI, CachedRepository(old(repo), cfg, open), newSbit, newEth)
      ensures var reachesOpen := if cfg.sbitRPC != "" then validURI(cfg.sbitRPC)
                                 else cfg.ethRPC != "" && validURI(cfg.ethRPC);
        repo == if reachesOpen && CachedRepository(old(repo), cfg, open).Success?
                then Some(CachedRepository(old(repo), cfg, open).value) else old(repo)
    {
      var deployer: Option<Backend> := None;
      var err: Option<string> := None;

      if cfg.sbitRPC != "" {
        if !validURI(cfg.sbitRPC) {
          return Failure(InvalidRPCURL(cfg.sbitRPC));
        }
        var got := ContractsRepository(open);
        if got.Failure? {
          return Failure(got.error);
        }
        var built := newSbit(cfg.sbitRPC, got.value, cfg.sbitSender);
        deployer, err := Tagged((i: Instance) => SbitDeployer(i), built), built.err;
      }

      if cfg.ethRPC != "" {
        if !validURI(cfg.ethRPC) {
          return Failure(InvalidRPCURL(cfg.ethRPC));
        }
        var got := ContractsRepository(open);
        if got.Failure? {
          return Failure(got.error);
        }
        var built := newEth(cfg.ethRPC, got.value);
        deployer, err := Tagged((i: Instance) => EthDeployer(i), built), built.err;
      }

      r := Finish(deployer, err);
    }
  }
}
