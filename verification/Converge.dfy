/** What one apply run does, as a list of goals met one after the other. Each
    goal reads the chain and keeps it, sends transactions, or stops the run.
    The only values a run carries from one goal to the next are where each
    circuit's verifier is, located before anything is sent. */
module Converge {
  import opened Prelude
  import opened OwnerSets
  import opened OwnerManager
  import opened Safes
  import opened Config
  import opened Worlds

  // ----- Where a circuit's verifier is -----

  datatype Site =
    /** Found through a platform whose verifier is the embedded one. */
    | InUse(address: Address)
    /** The address the embedded release names under the factory. */
    | Named(address: Address)

  /** Whether `p`'s Platform Verifier uses a verifier with the vendored code. */
  predicate UsesVendored(cfg: NetworkConfig, w: World, p: Platform) {
    var n := PlatformVerifier(p);
    Answers(w, n, HonkVerifier) && CodeAt(w, w.proxies[n].slots.honk) == Some(Vendored(cfg, CircuitOf(p)))
  }

  /** The first platform of the circuit that uses the vendored code decides;
      one that cannot be read offers nothing. */
  function SiteOf(cfg: NetworkConfig, w: World, c: Circuit): Site {
    if c.BearerLink? && UsesVendored(cfg, w, X) then InUse(w.proxies[PlatformVerifier(X)].slots.honk)
    else if c.BearerLink? && UsesVendored(cfg, w, GitHub) then InUse(w.proxies[PlatformVerifier(GitHub)].slots.honk)
    else if c.OidcGoogle? && UsesVendored(cfg, w, Google) then InUse(w.proxies[PlatformVerifier(Google)].slots.honk)
    else Named(At(cfg, OwnVerifier(cfg, c)))
  }

  datatype Sites = Sites(bearerLink: Site, oidcGoogle: Site) {
    function Of(c: Circuit): Site {
      if c.BearerLink? then bearerLink else oidcGoogle
    }
  }

  function Locate(cfg: NetworkConfig, w: World): Sites {
    Sites(SiteOf(cfg, w, BearerLink), SiteOf(cfg, w, OidcGoogle))
  }

  datatype Ctx = Ctx(cfg: NetworkConfig, confirm: bool, sites: Sites) {
    function CircuitAt(p: Platform): Address {
      sites.Of(CircuitOf(p)).address
    }
  }

  // ----- Goals -----

  datatype Goal =
    | FreshDeployConfirmed
    | Create2DeployerInstalled
    | FactoryInstalled
    | FactoryOwned
    | Deployed(name: Name)
    | CircuitDeployed(circuit: Circuit)
    | Upgraded(name: Name)
    | NotaryTrusted
    | FeeCharged
    | RecipientSet
    | RegistryWired
    | EscrowBound
    | RootsWired
    | TrustRootsSet(platform: Platform)
    | GoogleRootsRead
    | Registered(platform: Platform)
    | Accepting(platform: Platform)
    | OwnershipOffered
    | OwnershipAccepted
    | SafeReleaseChecked
    | SafeCreated(index: nat)
    | SafeHandedOver(index: nat)

  datatype Move =
    | Keep
    /** The factory's record is taken for the deployment; nothing is sent. */
    | Reuse
    | Send(txs: seq<Tx>)
    | Stop

  /** What the initializer of `n` writes. */
  function InitialSlots(ctx: Ctx, n: Name): Slots {
    var blank := Slots({}, 0, ZERO, map[], ZERO, ZERO, ZERO, ZERO, true);
    match n
    case NotaryService =>
      blank.(trusted := {ctx.cfg.notary}, fee := ctx.cfg.fee, recipient := ctx.cfg.artifacts.initialFeeRecipient)
    case HandleEscrow => blank.(pointer := At(ctx.cfg, IdentityRegistry))
    case GoogleJwtRoots => blank.(pointer := At(ctx.cfg, NotaryService))
    case PlatformVerifier(Google) => blank.(honk := ctx.CircuitAt(Google), roots := At(ctx.cfg, GoogleJwtRoots))
    case PlatformVerifier(p) => blank.(notary := At(ctx.cfg, NotaryService), honk := ctx.CircuitAt(p))
    case _ => blank
  }

  /** `factory_deploy_named`: a recorded name is reused, another deployed. */
  function DeployNamed(ctx: Ctx, n: Name, txs: seq<Tx>, w: World): Move {
    if w.factory.None? then Stop
    else if n in w.factory.value.records then
      if w.factory.value.records[n] == At(ctx.cfg, n) then Reuse else Stop
    else Send(txs)
  }

  predicate CircuitMissing(ctx: Ctx, w: World, c: Circuit) {
    ctx.sites.Of(c).Named? && ctx.sites.Of(c).address !in w.code
  }

  /** Whether anything has to go through the owner-gated `factory.deploy`. */
  predicate NeedsFactory(ctx: Ctx, w: World) {
    || (exists n :: n in ENTRIES && n !in w.proxies)
    || CircuitMissing(ctx, w, BearerLink)
    || CircuitMissing(ctx, w, OidcGoogle)
  }

  /** A setter call, sent when the value read differs from the wanted one. */
  function Setting(w: World, n: Name, getter: Method, settled: bool, change: Change): Move {
    if !Answers(w, n, getter) then Stop
    else if settled then Keep
    else Send([SetOn(n, change)])
  }

  function SlotsOf(w: World, n: Name): Slots
    requires n in w.proxies
  {
    w.proxies[n].slots
  }

  /** `acceptsBindings`: the registry's proof verifier routes the platform. */
  predicate AcceptsNow(cfg: NetworkConfig, w: World, p: Platform) {
    && Answers(w, IdentityRegistry, AcceptsBindings)
    && SlotsOf(w, IdentityRegistry).pointer == At(cfg, CeremonyProofVerifier)
    && CeremonyProofVerifier in w.proxies
    && p in SlotsOf(w, CeremonyProofVerifier).versions
    && SlotsOf(w, CeremonyProofVerifier).versions[p] != ZERO
  }

  function TrustRootsMove(ctx: Ctx, w: World, p: Platform): Move {
    var n := PlatformVerifier(p);
    var circuit := ctx.CircuitAt(p);
    if !Answers(w, n, HonkVerifier) then Stop
    else if SlotsOf(w, n).honk == circuit || UsesVendored(ctx.cfg, w, p) then Keep
    else if !Answers(w, n, CircuitCodehash) || !Answers(w, n, PlatformNotary) then Stop
    else if CodeAt(w, circuit) != Some(Vendored(ctx.cfg, CircuitOf(p))) then Stop
    else if w.proxies[n].impl.pins != Some(Vendored(ctx.cfg, CircuitOf(p))) then Stop
    else Send([SetOn(n, VerifyWith(SlotsOf(w, n).notary, circuit))])
  }

  predicate HoldsRelease(w: World) {
    && CodeAt(w, PROXY_FACTORY) == Some(PROXY_FACTORY_CODE)
    && CodeAt(w, SINGLETON) == Some(SINGLETON_CODE)
    && CodeAt(w, FALLBACK_HANDLER) == Some(FALLBACK_HANDLER_CODE)
    && CodeAt(w, MULTI_SEND_CALL_ONLY) == Some(MULTI_SEND_CODE)
  }

  const PROXY_FACTORY: Address := 0x4e1DCf7AD4e460CfD30791CCC4F9c8a4f820ec67
  const SINGLETON: Address := 0x29fcB43b46531BcA003ddC8FCB67FFE91900C762
  const FALLBACK_HANDLER: Address := 0xfd0732Dc9E303f09fCEf3a7388Ad10A83459Ec99
  const PROXY_FACTORY_CODE := OtherCode(0x50c3cdc4074750a7a974204a716c999edd37482f907608d960b2b025ee0b3317)
  const SINGLETON_CODE := OtherCode(0xb1f926978a0f44a2c0ec8fe822418ae969bd8c3f18d61e5103100339894f81ff)
  const FALLBACK_HANDLER_CODE := OtherCode(0x7c6007a5d711cea8dfd5d91f5940ec29c7f200fe511eb1fc1397b367af3c42f9)
  const MULTI_SEND_CODE := OtherCode(0xecd5bd14a08c5d2122379900b2f272bdf107a7e92423c10dd5fe3254386c9939)

  datatype ReleaseContract = ReleaseContract(address: Address, code: Code)

  const RELEASE: seq<ReleaseContract> := [
    ReleaseContract(PROXY_FACTORY, PROXY_FACTORY_CODE),
    ReleaseContract(SINGLETON, SINGLETON_CODE),
    ReleaseContract(FALLBACK_HANDLER, FALLBACK_HANDLER_CODE),
    ReleaseContract(MULTI_SEND_CALL_ONLY, MULTI_SEND_CODE)]

  predicate IsCanonical(w: World, i: nat)
    requires i < |RELEASE|
  {
    CodeAt(w, RELEASE[i].address) == Some(RELEASE[i].code)
  }

  lemma ReleaseIsCanonical(w: World)
    ensures HoldsRelease(w) <==> forall i | 0 <= i < |RELEASE| :: IsCanonical(w, i)
  {
    assert HoldsRelease(w) <==> IsCanonical(w, 0) && IsCanonical(w, 1) && IsCanonical(w, 2) && IsCanonical(w, 3);
  }

  /** The owner change apply signs for a Safe. */
  function HandOver(cfg: NetworkConfig, safe: Address, on: OwnerSet, declared: OwnerSet): Tx {
    ExecSafe(safe, HandOverTransaction(safe, cfg.deployer, on, declared))
  }

  /** `owner_set`: the read fails on a threshold beyond 64 bits. */
  function ReadOwners(w: World, safe: Address): Option<OwnerSet> {
    if safe !in w.safes || w.safes[safe].threshold >= U64_BOUND then None else Some(OwnersOf(w.safes[safe]))
  }

  function SafeMove(cfg: NetworkConfig, w: World, decl: SafeDecl): Move {
    var on := ReadOwners(w, SafeAt(decl));
    if on.None? then Stop
    else if on.value.SameAs(decl.Declared()) then Keep
    else if !on.value.SignsAlone(cfg.deployer) then Keep  // its owners sign the change
    else Send([HandOver(cfg, SafeAt(decl), on.value, decl.Declared())])
  }

  function MoveFor(ctx: Ctx, g: Goal, w: World): Move {
    var cfg := ctx.cfg;
    match g
    case FreshDeployConfirmed => if w.factory.None? && !ctx.confirm then Stop else Keep
    case Create2DeployerInstalled => if w.create2Deployer then Keep else Send([InstallCreate2Deployer])
    case FactoryInstalled => if w.factory.Some? then Keep else Send([InstallFactory])
    case FactoryOwned =>
      if !NeedsFactory(ctx, w) then Keep
      else if w.factory.None? then Stop
      else if w.factory.value.owner == cfg.deployer then Keep
      else if w.factory.value.pending == cfg.deployer then Send([AcceptOwnership(cfg.deployer)])
      else Stop
    case Deployed(n) =>
      if n in w.proxies then Keep
      else if n.PlatformVerifier? && CodeAt(w, ctx.CircuitAt(n.platform)) != Some(Vendored(cfg, CircuitOf(n.platform)))
      then Stop
      else DeployNamed(ctx, n, [DeployImplementation(n), DeployProxy(n, InitialSlots(ctx, n))], w)
    case CircuitDeployed(c) =>
      if !CircuitMissing(ctx, w, c) then Keep else DeployNamed(ctx, OwnVerifier(cfg, c), [DeployCircuit(c)], w)
    case Upgraded(n) => Send([DeployImplementation(n), Upgrade(n)])
    case NotaryTrusted =>
      Setting(w, NotaryService, IsTrustedNotary,
        NotaryService in w.proxies && cfg.notary in SlotsOf(w, NotaryService).trusted, TrustNotary(cfg.notary))
    case FeeCharged =>
      Setting(w, NotaryService, Fee,
        NotaryService in w.proxies && SlotsOf(w, NotaryService).fee == cfg.fee, ChargeFee(cfg.fee))
    case RecipientSet =>
      if cfg.feeRecipient.None? then Keep
      else Setting(w, NotaryService, FeeRecipient,
        NotaryService in w.proxies && SlotsOf(w, NotaryService).recipient == cfg.feeRecipient.value,
        SweepTo(cfg.feeRecipient.value))
    case RegistryWired =>
      Setting(w, IdentityRegistry, ProofVerifier,
        IdentityRegistry in w.proxies && SlotsOf(w, IdentityRegistry).pointer == At(cfg, CeremonyProofVerifier),
        PointAt(At(cfg, CeremonyProofVerifier)))
    case EscrowBound =>
      if Answers(w, HandleEscrow, Registry) && SlotsOf(w, HandleEscrow).pointer == At(cfg, IdentityRegistry)
      then Keep else Stop
    case RootsWired =>
      Setting(w, GoogleJwtRoots, RootsNotary,
        GoogleJwtRoots in w.proxies && SlotsOf(w, GoogleJwtRoots).pointer == At(cfg, NotaryService),
        PointAt(At(cfg, NotaryService)))
    case TrustRootsSet(p) => TrustRootsMove(ctx, w, p)
    case GoogleRootsRead =>
      Setting(w, PlatformVerifier(Google), JwtRoots,
        PlatformVerifier(Google) in w.proxies
        && SlotsOf(w, PlatformVerifier(Google)).roots == At(cfg, GoogleJwtRoots),
        ReadRootsFrom(At(cfg, GoogleJwtRoots)))
    case Registered(p) =>
      Setting(w, CeremonyProofVerifier, VerifierOf,
        CeremonyProofVerifier in w.proxies && p in SlotsOf(w, CeremonyProofVerifier).versions
        && SlotsOf(w, CeremonyProofVerifier).versions[p] == At(cfg, PlatformVerifier(p)),
        RegisterVerifier(p, At(cfg, PlatformVerifier(p))))
    case Accepting(p) => if AcceptsNow(cfg, w, p) then Keep else Stop
    case OwnershipOffered =>
      if w.factory.None? then Stop
      else if w.factory.value.owner == OperationalOwner(cfg) || w.factory.value.owner != cfg.deployer then Keep
      else if w.factory.value.pending == OperationalOwner(cfg) then Keep
      else Send([TransferOwnership(OperationalOwner(cfg))])
    case OwnershipAccepted =>
      if w.factory.None? then Stop
      else if w.factory.value.owner == OperationalOwner(cfg) || w.factory.value.owner != cfg.deployer then Keep
      else if w.dev then Send([AcceptOwnership(OperationalOwner(cfg))])
      else Keep
    case SafeReleaseChecked => if cfg.safes == [] || HoldsRelease(w) then Keep else Stop
    case SafeCreated(i) =>
      if i >= |cfg.safes| then Stop
      else if SafeAt(cfg.safes[i]) in w.safes then Keep
      else Send([CreateSafe(SafeAt(cfg.safes[i]))])
    case SafeHandedOver(i) => if i >= |cfg.safes| then Stop else SafeMove(cfg, w, cfg.safes[i])
  }

  /** What a goal re-reads after it sent its transactions. */
  predicate Confirmed(ctx: Ctx, g: Goal, w: World) {
    match g
    case FactoryInstalled => w.factory.Some?
    case SafeCreated(i) => i < |ctx.cfg.safes| && SafeAt(ctx.cfg.safes[i]) in w.safes
    case SafeHandedOver(i) =>
      && i < |ctx.cfg.safes| && ReadOwners(w, SafeAt(ctx.cfg.safes[i])).Some?
      && ReadOwners(w, SafeAt(ctx.cfg.safes[i])).value.SameAs(ctx.cfg.safes[i].Declared())
    case _ => true
  }

  datatype Component = TheFactory | Contract(name: Name) | CircuitCode(circuit: Circuit) | SafeNamed(table: string)

  /** What the summary lists as deployed once a goal has acted. */
  function Reported(ctx: Ctx, g: Goal): seq<Component> {
    match g
    case FactoryInstalled => [TheFactory]
    case Deployed(n) => [Contract(n)]
    case CircuitDeployed(c) => [CircuitCode(c)]
    case SafeCreated(i) => if i < |ctx.cfg.safes| then [SafeNamed(ctx.cfg.safes[i].name)] else []
    case _ => []
  }

  // ----- A run -----

  /** How far a run got: the transactions that landed and the world they led
      to, what it reports, and whether it finished. */
  datatype Outcome = Outcome(
    ok: bool, world: World, trace: seq<Tx>, deployed: seq<Component>, upgraded: seq<Name>)

  function Idle(w: World): Outcome { Outcome(true, w, [], [], []) }

  function Failed(w: World, trace: seq<Tx>): Outcome { Outcome(false, w, trace, [], []) }

  /** Sends `txs` until one reverts; the ones before it have landed. */
  function SendAll(cfg: NetworkConfig, txs: seq<Tx>, w: World): Outcome
    decreases |txs|
  {
    if txs == [] then Idle(w)
    else
      var next := Apply(cfg, txs[0], w);
      if next.None? then Failed(w, [])
      else
        var rest := SendAll(cfg, txs[1..], next.value);
        rest.(trace := [txs[0]] + rest.trace)
  }

  function Perform(ctx: Ctx, g: Goal, w: World): Outcome {
    match MoveFor(ctx, g, w)
    case Keep => Idle(w)
    case Reuse => Outcome(true, w, [], Reported(ctx, g), [])
    case Stop => Failed(w, [])
    case Send(txs) =>
      var sent := SendAll(ctx.cfg, txs, w);
      if sent.ok && Confirmed(ctx, g, sent.world) then
        sent.(deployed := Reported(ctx, g), upgraded := if g.Upgraded? then [g.name] else [])
      else Failed(sent.world, sent.trace)
  }

  function Then(a: Outcome, b: Outcome): Outcome {
    Outcome(b.ok, b.world, a.trace + b.trace, a.deployed + b.deployed, a.upgraded + b.upgraded)
  }

  /** The goals in order, up to the first that stops. */
  function Run(ctx: Ctx, goals: seq<Goal>, w: World): Outcome {
    if goals == [] then Idle(w)
    else
      var first := Perform(ctx, goals[0], w);
      if first.ok then Then(first, Run(ctx, goals[1..], first.world)) else first
  }

  // ----- The goals of one run, in the order apply meets them -----

  /** The `--upgrade`s of one component: one goal per request. */
  function UpgradesOf(upgrades: seq<Name>, n: Name): seq<Goal> {
    if upgrades == [] then []
    else (if upgrades[0] == n then [Upgraded(n)] else []) + UpgradesOf(upgrades[1..], n)
  }

  const INSTALL: seq<Goal> := [FreshDeployConfirmed, Create2DeployerInstalled, FactoryInstalled]

  function NotarySection(u: seq<Name>): seq<Goal> {
    [Deployed(NotaryService)] + UpgradesOf(u, NotaryService) + [NotaryTrusted, FeeCharged, RecipientSet]
  }

  function ProofVerifierSection(u: seq<Name>): seq<Goal> {
    [Deployed(CeremonyProofVerifier)] + UpgradesOf(u, CeremonyProofVerifier)
  }

  function RegistrySection(u: seq<Name>): seq<Goal> {
    [Deployed(IdentityRegistry)] + UpgradesOf(u, IdentityRegistry) + [RegistryWired]
  }

  function EscrowSection(u: seq<Name>): seq<Goal> {
    [Deployed(HandleEscrow)] + UpgradesOf(u, HandleEscrow) + [EscrowBound]
  }

  function RootsSection(u: seq<Name>): seq<Goal> {
    [Deployed(GoogleJwtRoots)] + UpgradesOf(u, GoogleJwtRoots) + [RootsWired]
  }

  function PlatformSection(u: seq<Name>, p: Platform): seq<Goal> {
    [CircuitDeployed(CircuitOf(p)), Deployed(PlatformVerifier(p))] + UpgradesOf(u, PlatformVerifier(p))
    + [TrustRootsSet(p)] + (if p.Google? then [GoogleRootsRead] else []) + [Registered(p)]
  }

  const ACCEPTING: seq<Goal> := [Accepting(X), Accepting(GitHub), Accepting(Google)]

  const OWNERSHIP: seq<Goal> := [OwnershipOffered, OwnershipAccepted]

  /** The Safes from index `i` on. */
  function SafeGoals(cfg: NetworkConfig, i: nat): seq<Goal>
    requires i <= |cfg.safes|
    decreases |cfg.safes| - i
  {
    if i == |cfg.safes| then [] else [SafeCreated(i), SafeHandedOver(i)] + SafeGoals(cfg, i + 1)
  }

  function StackGoals(u: seq<Name>): seq<Goal> {
    NotarySection(u) + ProofVerifierSection(u) + RegistrySection(u) + EscrowSection(u) + RootsSection(u)
    + PlatformSection(u, X) + PlatformSection(u, GitHub) + PlatformSection(u, Google)
    + ACCEPTING
  }

  /** Everything up to the ownership of the factory. */
  function FrontGoals(u: seq<Name>): seq<Goal> {
    INSTALL + [FactoryOwned] + StackGoals(u)
  }

  function BackGoals(cfg: NetworkConfig): seq<Goal> {
    OWNERSHIP + [SafeReleaseChecked] + SafeGoals(cfg, 0)
  }

  function Goals(cfg: NetworkConfig, u: seq<Name>): seq<Goal> {
    FrontGoals(u) + BackGoals(cfg)
  }

  datatype Options = Options(upgrades: seq<Name>, confirmFreshDeploy: bool)

  /** One run, signed by `sender`. */
  function RunAll(cfg: NetworkConfig, sender: Address, opts: Options, w: World): Outcome {
    if sender != cfg.deployer then Failed(w, [])
    else
      Run(Ctx(cfg, opts.confirmFreshDeploy, Locate(cfg, w)), Goals(cfg, opts.upgrades), w)
  }
}
