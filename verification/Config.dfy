/** A network file after validation, and the artifacts the binary embeds. */
module Config {
  import opened Prelude
  import opened OwnerSets

  datatype Circuit = BearerLink | OidcGoogle

  datatype Platform = X | GitHub | Google

  /** X and GitHub prove one statement, so one circuit serves both. */
  function CircuitOf(p: Platform): Circuit {
    if p.Google? then OidcGoogle else BearerLink
  }

  /** The launch platforms and the circuits, in the order they are met. */
  const LAUNCH: seq<Platform> := [X, GitHub, Google]

  const CIRCUITS: seq<Circuit> := [BearerLink, OidcGoogle]

  /** Everything deployed through the factory under a name. */
  datatype Name =
    | NotaryService
    | CeremonyProofVerifier
    | IdentityRegistry
    | HandleEscrow
    | GoogleJwtRoots
    | PlatformVerifier(platform: Platform)
    /** A circuits release names its verifiers by circuit and version. */
    | CircuitVerifier(circuit: Circuit, version: nat)

  /** The entry contracts, in deploy order. */
  const ENTRIES: seq<Name> := [
    NotaryService, CeremonyProofVerifier, IdentityRegistry, HandleEscrow, GoogleJwtRoots,
    PlatformVerifier(X), PlatformVerifier(GitHub), PlatformVerifier(Google)]

  predicate IsEntry(n: Name) {
    !n.CircuitVerifier?
  }

  /** `[contracts]`: each key declares the address its name predicts. */
  datatype Contracts = Contracts(
    factory: Address,
    notaryService: Address,
    proofVerifier: Address,
    identityRegistry: Address,
    handleEscrow: Address,
    jwtRoots: Address,
    xVerifier: Address,
    githubVerifier: Address,
    googleVerifier: Address)

  /** Runtime code, as far as a code hash tells it apart. A Honk verifier's
      code is its circuit's verification key. */
  datatype Code = HonkCode(circuit: Circuit, build: nat) | OtherCode(codehash: nat)

  /** The embedded circuit verifiers and the version of the circuits release
      they come from. */
  datatype Artifacts = Artifacts(
    version: nat,
    bearerLinkBuild: nat,
    oidcGoogleBuild: nat,
    initialFeeRecipient: Address)

  datatype NetworkConfig = NetworkConfig(
    chainId: nat,
    deployer: Address,
    notary: Address,
    owner: Option<Address>,
    fee: nat,
    feeRecipient: Option<Address>,
    contracts: Contracts,
    artifacts: Artifacts,
    /** Where the factory puts the verifiers of each circuits release. */
    verifiers: map<Name, Address>,
    /** Where a Safe's name puts it under this deployer. */
    predicted: map<string, Address>,
    safes: seq<SafeDecl>)

  function At(cfg: NetworkConfig, n: Name): Address {
    match n
    case NotaryService => cfg.contracts.notaryService
    case CeremonyProofVerifier => cfg.contracts.proofVerifier
    case IdentityRegistry => cfg.contracts.identityRegistry
    case HandleEscrow => cfg.contracts.handleEscrow
    case GoogleJwtRoots => cfg.contracts.jwtRoots
    case PlatformVerifier(X) => cfg.contracts.xVerifier
    case PlatformVerifier(GitHub) => cfg.contracts.githubVerifier
    case PlatformVerifier(Google) => cfg.contracts.googleVerifier
    case CircuitVerifier(_, _) => if n in cfg.verifiers then cfg.verifiers[n] else ZERO
  }

  /** The name the embedded release gives a circuit's verifier. */
  function OwnVerifier(cfg: NetworkConfig, c: Circuit): Name {
    CircuitVerifier(c, cfg.artifacts.version)
  }

  /** The entries, and the circuit verifiers of the embedded release. */
  predicate IsOwn(cfg: NetworkConfig, n: Name) {
    IsEntry(n) || n.version == cfg.artifacts.version
  }

  function Vendored(cfg: NetworkConfig, c: Circuit): Code {
    HonkCode(c, if c.BearerLink? then cfg.artifacts.bearerLinkBuild else cfg.artifacts.oidcGoogleBuild)
  }

  function SafeAt(decl: SafeDecl): Address {
    decl.address.GetOr(ZERO)
  }

  /** What the factory should end up owned by: the deployer by default. */
  function OperationalOwner(cfg: NetworkConfig): Address {
    cfg.owner.GetOr(cfg.deployer)
  }

  /** A loaded file: declared addresses that are set, every Safe admitted at the
      address its name predicts, and no two predictions colliding. */
  ghost predicate Valid(cfg: NetworkConfig) {
    && (forall n {:trigger IsOwn(cfg, n)} :: IsOwn(cfg, n) ==> At(cfg, n) != ZERO)
    && At(cfg, OwnVerifier(cfg, BearerLink)) != At(cfg, OwnVerifier(cfg, OidcGoogle))
    && (forall i :: 0 <= i < |cfg.safes| ==> AdmittedSafe(cfg, cfg.safes[i]))
    && (forall i, j :: 0 <= i < j < |cfg.safes| ==>
          SafeAt(cfg.safes[i]) != SafeAt(cfg.safes[j]) && cfg.safes[i].name != cfg.safes[j].name)
  }

  lemma OwnIsPlaced(cfg: NetworkConfig, n: Name)
    requires Valid(cfg) && IsOwn(cfg, n)
    ensures At(cfg, n) != ZERO
  {
  }

  ghost predicate AdmittedSafe(cfg: NetworkConfig, decl: SafeDecl) {
    && decl.name in cfg.predicted && ValidateSafe(decl, cfg.predicted[decl.name]).None?
    && decl.threshold < U64_BOUND
    && !Reserved(cfg.deployer, SafeAt(decl))
  }
}
