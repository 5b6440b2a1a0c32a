/** The run itself: one object that reads the chain, sends, and notes what it
    did, step after step. Each step is proved to do what its goals describe. */
module Applier {
  import opened Prelude
  import opened OwnerSets
  import opened OwnerProgram
  import opened OwnerManager
  import opened Abi
  import opened Safes
  import opened Config
  import opened Worlds
  import opened Converge
  import opened Stability
  import opened Flow
  import opened Checks
  import opened Tracking

  /** A chain: a transaction lands or reverts. */
  class Chain {
    var world: World
    /** Every transaction that landed. */
    ghost var log: seq<Tx>

    constructor (world: World)
      ensures this.world == world && log == []
    {
      this.world, log := world, [];
    }

    method Send(cfg: NetworkConfig, tx: Tx) returns (ok: bool)
      modifies this
      ensures ok == Apply(cfg, tx, old(world)).Some?
      ensures ok ==> world == Apply(cfg, tx, old(world)).value && log == old(log) + [tx]
      ensures !ok ==> world == old(world) && log == old(log)
      ensures SafesHealthy(old(world)) ==> SafesHealthy(world)
    {
      var next := Apply(cfg, tx, world);
      ok := next.Some?;
      if ok {
        if SafesHealthy(world) { ApplyKeepsSafesHealthy(cfg, tx, world); }
        world, log := next.value, log + [tx];
      }
    }
  }

  class Applier {
    const cfg: NetworkConfig
    const sender: Address
    const opts: Options
    const chain: Chain
    var deployed: seq<Component>
    var upgraded: seq<Name>
    /** Where each circuit's verifier is, located once. */
    var circuits: map<Circuit, Site>

    /** The chain when the run began, and the goals it has come to. */
    ghost var start: World
    ghost var before: seq<Tx>
    ghost var goals: seq<Goal>

    /** The setting of this run. */
    ghost function Context(): Ctx
      reads this
    {
      Ctx(cfg, opts.confirmFreshDeploy, Locate(cfg, start))
    }

    /** The run has met `goals`, and has this much to report. */
    ghost predicate Tracks(components: seq<Component>, upgrades: seq<Name>)
      reads this, chain
    {
      var out := Run(Context(), goals, start);
      && out.ok && chain.world == out.world && chain.log == before + out.trace
      && out.deployed == components && out.upgraded == upgrades
    }

    /** The run has stopped at the last of `goals`. */
    ghost predicate Stopped()
      reads this, chain
    {
      var out := Run(Context(), goals, start);
      !out.ok && chain.world == out.world && chain.log == before + out.trace
    }

    /** What every step starts from. */
    ghost predicate Ready()
      reads this, chain
    {
      && sender == cfg.deployer && Valid(cfg) && (forall n :: n in opts.upgrades ==> IsEntry(n))
      && SafesHealthy(chain.world)
      && Tracks(deployed, upgraded)
    }

    /** How a step ends: ready for the next, or stopped. */
    ghost predicate Done(ok: bool)
      reads this, chain
    {
      if ok then Ready() else Stopped()
    }

    constructor (cfg: NetworkConfig, sender: Address, opts: Options, chain: Chain)
      ensures this.cfg == cfg && this.sender == sender && this.opts == opts && this.chain == chain
      ensures deployed == [] && upgraded == []
    {
      this.cfg, this.sender, this.opts, this.chain := cfg, sender, opts, chain;
      deployed, upgraded, circuits := [], [], map[];
    }

    // ----- How a goal ends -----

    ghost method Keep(g: Goal)
      requires Ready() && MoveFor(Context(), g, chain.world).Keep?
      modifies `goals
      ensures Ready() && goals == old(goals) + [g]
    {
      RunKeeps(Context(), goals, g, start);
      goals := goals + [g];
    }

    ghost method Stop(g: Goal)
      requires Ready() && MoveFor(Context(), g, chain.world).Stop?
      modifies `goals
      ensures Stopped() && goals == old(goals) + [g]
    {
      RunStops(Context(), goals, g, start);
      goals := goals + [g];
    }

    /** The goals a stopped run does not come to. */
    ghost method Abandon(rest: seq<Goal>)
      requires Stopped()
      modifies `goals
      ensures Stopped() && goals == old(goals) + rest
    {
      StaysStopped(Context(), goals, rest, start);
      goals := goals + rest;
    }

    /** Sends the one transaction of a goal. */
    method SendFor(ghost g: Goal, tx: Tx) returns (ok: bool)
      requires Ready() && !g.Upgraded? && MoveFor(Context(), g, chain.world) == Send([tx])
      modifies `goals, chain
      ensures goals == old(goals) + [g] && SafesHealthy(chain.world)
      ensures ok == Apply(cfg, tx, old(chain.world)).Some?
      ensures chain.world == if ok then Apply(cfg, tx, old(chain.world)).value else old(chain.world)
      ensures if ok && Confirmed(Context(), g, chain.world)
              then Tracks(deployed + Reported(Context(), g), upgraded) else Stopped()
    {
      RunSends(Context(), goals, g, start, tx);
      AppendAssociates(before, Run(Context(), goals, start).trace, [tx]);
      ok := chain.Send(cfg, tx);
      goals := goals + [g];
    }

    /** Sends the one transaction of a goal that then looks at what it did. */
    method SendAndLook(ghost g: Goal, tx: Tx, ghost report: seq<Component>) returns (landed: bool)
      requires Ready() && !g.Upgraded? && MoveFor(Context(), g, chain.world) == Send([tx])
      requires Reported(Context(), g) == report
      modifies `goals, chain
      ensures goals == old(goals) + [g] && SafesHealthy(chain.world)
      ensures if landed && Confirmed(Context(), g, chain.world) then Tracks(deployed + report, upgraded) else Stopped()
    {
      landed := SendFor(g, tx);
    }

    /** Deploys the implementation a goal's transaction then uses. */
    method SendPair(ghost g: Goal, n: Name, tx: Tx) returns (ok: bool)
      requires Ready() && (g.Deployed? || g.Upgraded?) && g.name == n
      requires MoveFor(Context(), g, chain.world) == Send([DeployImplementation(n), tx])
      modifies `goals, chain
      ensures goals == old(goals) + [g] && SafesHealthy(chain.world)
      ensures ok == Apply(cfg, tx, old(chain.world)).Some?
      ensures chain.world == if ok then Apply(cfg, tx, old(chain.world)).value else old(chain.world)
      ensures if ok
              then Tracks(deployed + Reported(Context(), g), upgraded + if g.Upgraded? then [n] else [])
              else Stopped()
    {
      RunSendsTwo(Context(), goals, g, start, tx);
      ghost var trace := Run(Context(), goals, start).trace;
      AppendAssociates(before, trace, [DeployImplementation(n)]);
      AppendAssociates(before, trace + [DeployImplementation(n)], [tx]);
      ImplementationLands(cfg, n, chain.world);
      ok := chain.Send(cfg, DeployImplementation(n));
      ok := chain.Send(cfg, tx);
      goals := goals + [g];
    }

    /** A setter call on a proxy. */
    method Set(ghost g: Goal, n: Name, change: Change) returns (ok: bool)
      requires Ready() && StackGoal(g) && !g.Upgraded? && Reported(Context(), g) == []
      requires MoveFor(Context(), g, chain.world) == Send([SetOn(n, change)])
      modifies `goals, chain
      ensures goals == old(goals) + [g] && Done(ok)
      ensures chain.world.proxies.Keys == old(chain.world.proxies.Keys)
    {
      SetterKeepsKeys(cfg, n, change, chain.world);
      ok := SendFor(g, SetOn(n, change));
      NothingToConfirm(Context(), g, chain.world);
      assert deployed + [] == deployed;
    }

    // ----- Step 0: the factory -----

    method Create2Deployer() returns (ok: bool)
      requires Ready()
      modifies `goals, chain
      ensures goals == old(goals) + [Create2DeployerInstalled] && Done(ok)
      ensures chain.world.proxies == old(chain.world.proxies) && chain.world.code == old(chain.world.code)
      ensures chain.world.factory == old(chain.world.factory)
    {
      if chain.world.create2Deployer {
        Keep(Create2DeployerInstalled);
        ok := true;
      } else {
        ok := SendFor(Create2DeployerInstalled, InstallCreate2Deployer);
        assert deployed + [] == deployed;
      }
    }

    /** Installs the factory where it is missing, and checks that it landed at
        its canonical address. */
    method GenesisFactory() returns (ok: bool)
      requires Ready()
      modifies `goals, `deployed, chain
      ensures goals == old(goals) + [FactoryInstalled] && Done(ok)
      ensures chain.world.proxies == old(chain.world.proxies) && chain.world.code == old(chain.world.code)
    {
      var wasPresent := chain.world.factory.Some?;
      if wasPresent {
        Keep(FactoryInstalled);
        return true;
      }
      ok := SendFor(FactoryInstalled, InstallFactory);
      if !ok { return; }
      if chain.world.factory.None? { return false; }
      deployed := deployed + [TheFactory];
    }

    method Install() returns (ok: bool)
      requires Ready()
      modifies `goals, `deployed, chain
      ensures goals == old(goals) + INSTALL && Done(ok)
      ensures chain.world.proxies == old(chain.world.proxies) && chain.world.code == old(chain.world.code)
    {
      if chain.world.factory.None? && !opts.confirmFreshDeploy {
        Stop(FreshDeployConfirmed);
        Abandon([Create2DeployerInstalled, FactoryInstalled]);
        return false;
      }
      Keep(FreshDeployConfirmed);
      ok := Substrate();
    }

    method Substrate() returns (ok: bool)
      requires Ready()
      modifies `goals, `deployed, chain
      ensures goals == old(goals) + [Create2DeployerInstalled, FactoryInstalled] && Done(ok)
      ensures chain.world.proxies == old(chain.world.proxies) && chain.world.code == old(chain.world.code)
    {
      ok := Create2Deployer();
      if !ok {
        Abandon([FactoryInstalled]);
        return;
      }
      ok := GenesisFactory();
    }

    /** The owner gate, in front of everything that deploys. */
    method EnsureFactoryOwnership(needed: bool) returns (ok: bool)
      requires Ready() && needed == NeedsFactory(Context(), chain.world)
      modifies `goals, chain
      ensures goals == old(goals) + [FactoryOwned] && Done(ok)
      ensures chain.world.proxies == old(chain.world.proxies)
    {
      if !needed {
        Keep(FactoryOwned);
        return true;
      }
      var factory := chain.world.factory;
      if factory.None? {
        Stop(FactoryOwned);
        return false;
      }
      if factory.value.owner == sender {
        Keep(FactoryOwned);
        return true;
      }
      if factory.value.pending != sender {
        Stop(FactoryOwned);
        return false;
      }
      ok := SendFor(FactoryOwned, AcceptOwnership(sender));
      assert deployed + [] == deployed;
    }

    // ----- Deploying through the factory -----

    /** A name the factory already deployed is taken where it says it is, at
        the predicted address. */
    method ReuseRecord(ghost g: Goal, predicted: bool) returns (ok: bool)
      requires Ready()
      requires if predicted then MoveFor(Context(), g, chain.world).Reuse? else MoveFor(Context(), g, chain.world).Stop?
      modifies `goals
      ensures goals == old(goals) + [g] && ok == predicted
      ensures if ok then Tracks(deployed + Reported(Context(), g), upgraded) else Stopped()
    {
      ok := predicted;
      if ok {
        RunReuses(Context(), goals, g, start);
        goals := goals + [g];
      } else {
        Stop(g);
      }
    }

    method FreshProxy(n: Name, slots: Slots) returns (ok: bool)
      requires Ready() && MoveFor(Context(), Deployed(n), chain.world)
                          == Send([DeployImplementation(n), DeployProxy(n, slots)])
      modifies `goals, `deployed, chain
      ensures goals == old(goals) + [Deployed(n)] && Done(ok)
      ensures forall m :: m != n ==> (m in chain.world.proxies <==> m in old(chain.world.proxies))
    {
      ghost var was := chain.world;
      ok := SendPair(Deployed(n), n, DeployProxy(n, slots));
      if ok {
        OnlyItsProxy(cfg, n, slots, was);
        deployed := deployed + [Contract(n)];
      }
    }

    /** An implementation, then its proxy under the canonical name; a name on
        record is taken as deployed. */
    method DeployNamedProxy(n: Name, slots: Slots) returns (ok: bool)
      requires Ready() && IsEntry(n) && n !in chain.world.proxies && slots == InitialSlots(Context(), n)
      requires n.PlatformVerifier? ==>
        CodeAt(chain.world, Context().CircuitAt(n.platform)) == Some(Vendored(cfg, CircuitOf(n.platform)))
      modifies `goals, `deployed, chain
      ensures goals == old(goals) + [Deployed(n)] && Done(ok)
      ensures forall m :: m != n ==> (m in chain.world.proxies <==> m in old(chain.world.proxies))
    {
      var factory := chain.world.factory;
      if factory.None? {
        Stop(Deployed(n));
        return false;
      }
      if n in factory.value.records {
        ok := ReuseRecord(Deployed(n), factory.value.records[n] == At(cfg, n));
        if ok { deployed := deployed + [Contract(n)]; }
        return;
      }
      DeploySends(Context(), n, chain.world);
      ok := FreshProxy(n, slots);
    }

    /** The proxy of an entry contract, where the chain lacked it when the run
        looked. */
    method Entry(n: Name, present: bool) returns (ok: bool)
      requires Ready() && IsEntry(n) && !n.PlatformVerifier? && present == (n in chain.world.proxies)
      modifies `goals, `deployed, chain
      ensures goals == old(goals) + [Deployed(n)] && Done(ok)
      ensures forall m :: m != n ==> (m in chain.world.proxies <==> m in old(chain.world.proxies))
    {
      if present {
        Keep(Deployed(n));
        return true;
      }
      var blank := Slots({}, 0, ZERO, map[], ZERO, ZERO, ZERO, ZERO, true);
      var slots := match n
        case NotaryService =>
          blank.(trusted := {cfg.notary}, fee := cfg.fee, recipient := cfg.artifacts.initialFeeRecipient)
        case HandleEscrow => blank.(pointer := At(cfg, IdentityRegistry))
        case GoogleJwtRoots => blank.(pointer := At(cfg, NotaryService))
        case _ => blank;
      ok := DeployNamedProxy(n, slots);
    }

    // ----- Upgrades -----

    /** A new implementation under the proxy of `n`. */
    method UpgradeProxy(n: Name) returns (ok: bool)
      requires Ready() && IsEntry(n)
      modifies `goals, chain
      ensures goals == old(goals) + [Upgraded(n)] && SafesHealthy(chain.world)
      ensures if ok then Tracks(deployed, upgraded + [n]) else Stopped()
      ensures chain.world.proxies.Keys == old(chain.world.proxies.Keys)
    {
      ghost var was := chain.world;
      ok := SendPair(Upgraded(n), n, Upgrade(n));
      if ok { UpgradeKeepsKeys(cfg, n, was); }
      assert deployed + [] == deployed;
    }

    /** Request number `i`, where it names the component. */
    method UpgradeRequest(n: Name, i: nat) returns (ok: bool)
      requires Ready() && IsEntry(n) && i < |opts.upgrades|
      modifies `goals, `upgraded, chain
      ensures goals == old(goals) + UpgradesOf([opts.upgrades[i]], n) && Done(ok)
      ensures chain.world.proxies.Keys == old(chain.world.proxies.Keys)
    {
      assert [opts.upgrades[i]][1..] == [];
      ok := true;
      if opts.upgrades[i] == n {
        ok := UpgradeProxy(n);
        if ok { upgraded := upgraded + [n]; }
      }
    }

    /** The requested upgrades of one component, in the order requested. */
    method UpgradeIfRequested(n: Name) returns (ok: bool)
      requires Ready() && IsEntry(n)
      modifies `goals, `upgraded, chain
      ensures goals == old(goals) + UpgradesOf(opts.upgrades, n) && Done(ok)
      ensures chain.world.proxies.Keys == old(chain.world.proxies.Keys)
    {
      var u := opts.upgrades;
      ok := true;
      for i := 0 to |u|
        invariant ok && Ready() && goals == old(goals) + UpgradesOf(u[..i], n)
        invariant chain.world.proxies.Keys == old(chain.world.proxies.Keys)
      {
        UpgradeStep(old(goals), u, n, i);
        ok := UpgradeRequest(n, i);
        if !ok {
          Abandon(UpgradesOf(u[i + 1..], n));
          return;
        }
      }
      assert u[..|u|] == u;
    }

    /** The first part of an entry contract's section. */
    method EntryAndUpgrades(n: Name, present: bool) returns (ok: bool)
      requires Ready() && IsEntry(n) && !n.PlatformVerifier? && present == (n in chain.world.proxies)
      modifies `goals, `deployed, `upgraded, chain
      ensures goals == old(goals) + ([Deployed(n)] + UpgradesOf(opts.upgrades, n)) && Done(ok)
      ensures forall m :: m != n ==> (m in chain.world.proxies <==> m in old(chain.world.proxies))
    {
      AppendAssociates(goals, [Deployed(n)], UpgradesOf(opts.upgrades, n));
      ok := Entry(n, present);
      if !ok {
        Abandon(UpgradesOf(opts.upgrades, n));
        return;
      }
      ok := UpgradeIfRequested(n);
    }

    // ----- Step 1: the Notary Service -----

    method TrustNotaryKey() returns (ok: bool)
      requires Ready()
      modifies `goals, chain
      ensures goals == old(goals) + [NotaryTrusted] && Done(ok)
      ensures chain.world.proxies.Keys == old(chain.world.proxies.Keys)
    {
      var trusted := TrustedAt(chain.world, cfg.notary);
      if trusted.None? {
        Stop(NotaryTrusted);
        return false;
      }
      if trusted.value {
        Keep(NotaryTrusted);
        return true;
      }
      ok := Set(NotaryTrusted, NotaryService, TrustNotary(cfg.notary));
    }

    method ConvergeFee() returns (ok: bool)
      requires Ready()
      modifies `goals, chain
      ensures goals == old(goals) + [FeeCharged] && Done(ok)
      ensures chain.world.proxies.Keys == old(chain.world.proxies.Keys)
    {
      var fee := FeeAt(chain.world);
      if fee.None? {
        Stop(FeeCharged);
        return false;
      }
      if fee.value == cfg.fee {
        Keep(FeeCharged);
        return true;
      }
      ok := Set(FeeCharged, NotaryService, ChargeFee(cfg.fee));
    }

    method ConvergeRecipient() returns (ok: bool)
      requires Ready()
      modifies `goals, chain
      ensures goals == old(goals) + [RecipientSet] && Done(ok)
      ensures chain.world.proxies.Keys == old(chain.world.proxies.Keys)
    {
      if cfg.feeRecipient.None? {
        Keep(RecipientSet);
        return true;
      }
      var recipient := RecipientAt(chain.world);
      if recipient.None? {
        Stop(RecipientSet);
        return false;
      }
      if recipient.value == cfg.feeRecipient.value {
        Keep(RecipientSet);
        return true;
      }
      ok := Set(RecipientSet, NotaryService, SweepTo(cfg.feeRecipient.value));
    }

    method NotarySettings() returns (ok: bool)
      requires Ready()
      modifies `goals, chain
      ensures goals == old(goals) + [NotaryTrusted, FeeCharged, RecipientSet] && Done(ok)
      ensures chain.world.proxies.Keys == old(chain.world.proxies.Keys)
    {
      ok := TrustNotaryKey();
      if !ok {
        Abandon([FeeCharged, RecipientSet]);
        return;
      }
      ok := ConvergeFee();
      if !ok {
        Abandon([RecipientSet]);
        return;
      }
      ok := ConvergeRecipient();
    }

    method NotaryServiceStep(present: bool) returns (ok: bool)
      requires Ready() && present == (NotaryService in chain.world.proxies)
      modifies `goals, `deployed, `upgraded, chain
      ensures goals == old(goals) + NotarySection(opts.upgrades) && Done(ok)
      ensures forall m :: m != NotaryService ==> (m in chain.world.proxies <==> m in old(chain.world.proxies))
    {
      ghost var first := [Deployed(NotaryService)] + UpgradesOf(opts.upgrades, NotaryService);
      AppendAssociates(goals, first, [NotaryTrusted, FeeCharged, RecipientSet]);
      ok := EntryAndUpgrades(NotaryService, present);
      if !ok {
        Abandon([NotaryTrusted, FeeCharged, RecipientSet]);
        return;
      }
      ok := NotarySettings();
    }

    // ----- Steps 2 to 5: the contracts behind it -----

    method ProofVerifierStep(present: bool) returns (ok: bool)
      requires Ready() && present == (CeremonyProofVerifier in chain.world.proxies)
      modifies `goals, `deployed, `upgraded, chain
      ensures goals == old(goals) + ProofVerifierSection(opts.upgrades) && Done(ok)
      ensures forall m :: m != CeremonyProofVerifier ==> (m in chain.world.proxies <==> m in old(chain.world.proxies))
    {
      ok := EntryAndUpgrades(CeremonyProofVerifier, present);
    }

    /** A pointer of a registry or a root list, moved when it differs. */
    method ConvergePointer(ghost g: Goal, n: Name, pointer: Option<Address>, wanted: Address) returns (ok: bool)
      requires Ready() && (g.RegistryWired? || g.RootsWired?)
      requires MoveFor(Context(), g, chain.world)
               == if pointer.None? then Move.Stop else if pointer.value == wanted then Move.Keep
                  else Send([SetOn(n, PointAt(wanted))])
      modifies `goals, chain
      ensures goals == old(goals) + [g] && Done(ok)
      ensures chain.world.proxies.Keys == old(chain.world.proxies.Keys)
    {
      if pointer.None? {
        Stop(g);
        return false;
      }
      if pointer.value == wanted {
        Keep(g);
        return true;
      }
      ok := Set(g, n, PointAt(wanted));
    }

    method IdentityRegistryStep(present: bool) returns (ok: bool)
      requires Ready() && present == (IdentityRegistry in chain.world.proxies)
      modifies `goals, `deployed, `upgraded, chain
      ensures goals == old(goals) + RegistrySection(opts.upgrades) && Done(ok)
      ensures forall m :: m != IdentityRegistry ==> (m in chain.world.proxies <==> m in old(chain.world.proxies))
    {
      ghost var entry := [Deployed(IdentityRegistry)] + UpgradesOf(opts.upgrades, IdentityRegistry);
      AppendAssociates(goals, entry, [RegistryWired]);
      ok := EntryAndUpgrades(IdentityRegistry, present);
      if !ok {
        Abandon([RegistryWired]);
        return;
      }
      RegistryPointerMove(Context(), chain.world);
      ok := ConvergePointer(RegistryWired, IdentityRegistry, PointerAt(chain.world, IdentityRegistry, ProofVerifier),
        At(cfg, CeremonyProofVerifier));
    }

    /** An escrow cannot be bound anew, so a wrong binding ends the run. */
    method CheckEscrow() returns (ok: bool)
      requires Ready()
      modifies `goals
      ensures goals == old(goals) + [EscrowBound] && Done(ok)
    {
      var registry := PointerAt(chain.world, HandleEscrow, Registry);
      ok := registry == Some(At(cfg, IdentityRegistry));
      if ok { Keep(EscrowBound); } else { Stop(EscrowBound); }
    }

    method HandleEscrowStep(present: bool) returns (ok: bool)
      requires Ready() && present == (HandleEscrow in chain.world.proxies)
      modifies `goals, `deployed, `upgraded, chain
      ensures goals == old(goals) + EscrowSection(opts.upgrades) && Done(ok)
      ensures forall m :: m != HandleEscrow ==> (m in chain.world.proxies <==> m in old(chain.world.proxies))
    {
      AppendAssociates(goals, [Deployed(HandleEscrow)] + UpgradesOf(opts.upgrades, HandleEscrow), [EscrowBound]);
      ok := EntryAndUpgrades(HandleEscrow, present);
      if !ok {
        Abandon([EscrowBound]);
        return;
      }
      ok := CheckEscrow();
    }

    method JwtRootsStep(present: bool) returns (ok: bool)
      requires Ready() && present == (GoogleJwtRoots in chain.world.proxies)
      modifies `goals, `deployed, `upgraded, chain
      ensures goals == old(goals) + RootsSection(opts.upgrades) && Done(ok)
      ensures forall m :: m != GoogleJwtRoots ==> (m in chain.world.proxies <==> m in old(chain.world.proxies))
    {
      ghost var entry := [Deployed(GoogleJwtRoots)] + UpgradesOf(opts.upgrades, GoogleJwtRoots);
      AppendAssociates(goals, entry, [RootsWired]);
      ok := EntryAndUpgrades(GoogleJwtRoots, present);
      if !ok {
        Abandon([RootsWired]);
        return;
      }
      RootsPointerMove(Context(), chain.world);
      ok := ConvergePointer(RootsWired, GoogleJwtRoots, PointerAt(chain.world, GoogleJwtRoots, RootsNotary),
        At(cfg, NotaryService));
    }

    // ----- Step 6: a Platform Verifier per platform -----

    /** Both circuits' verifiers are where they were when the run began. */
    ghost predicate Located()
      reads this
    {
      forall c :: c in circuits && circuits[c] == Context().sites.Of(c)
    }

    /** The verifier of a circuit, deployed where nothing uses one yet and the
        chain lacks it. */
    method CircuitVerifierStep(c: Circuit) returns (ok: bool, address: Address)
      requires Ready() && Located()
      modifies `goals, `deployed, chain
      ensures goals == old(goals) + [CircuitDeployed(c)] && Done(ok)
      ensures address == Context().sites.Of(c).address
    {
      address := circuits[c].address;
      if circuits[c].InUse? || address in chain.world.code {
        Keep(CircuitDeployed(c));
        return true, address;
      }
      var factory := chain.world.factory;
      if factory.None? {
        Stop(CircuitDeployed(c));
        return false, address;
      }
      if OwnVerifier(cfg, c) in factory.value.records {
        ok := ReuseRecord(CircuitDeployed(c), factory.value.records[OwnVerifier(cfg, c)] == At(cfg, OwnVerifier(cfg, c)));
      } else {
        ok := SendFor(CircuitDeployed(c), DeployCircuit(c));
      }
      if ok { deployed := deployed + [CircuitCode(c)]; }
    }

    /** The proxy of a platform, on a verifier its implementation accepts. */
    method PlatformProxy(p: Platform, circuit: Address) returns (ok: bool)
      requires Ready() && circuit == Context().CircuitAt(p)
      modifies `goals, `deployed, chain
      ensures goals == old(goals) + [Deployed(PlatformVerifier(p))] && Done(ok)
    {
      if PlatformVerifier(p) in chain.world.proxies {
        Keep(Deployed(PlatformVerifier(p)));
        return true;
      }
      if CodeAt(chain.world, circuit) != Some(Vendored(cfg, CircuitOf(p))) {
        Stop(Deployed(PlatformVerifier(p)));
        return false;
      }
      var blank := Slots({}, 0, ZERO, map[], ZERO, ZERO, ZERO, ZERO, true);
      var slots := if p.Google?
        then blank.(honk := circuit, roots := At(cfg, GoogleJwtRoots))
        else blank.(notary := At(cfg, NotaryService), honk := circuit);
      ok := DeployNamedProxy(PlatformVerifier(p), slots);
    }

    /** Leaves a platform on the located verifier or on vendored code; moves any
        other onto the located one. */
    method ConvergeTrustRoots(p: Platform, circuit: Address) returns (ok: bool)
      requires Ready() && circuit == Context().CircuitAt(p)
      modifies `goals, chain
      ensures goals == old(goals) + [TrustRootsSet(p)] && Done(ok)
    {
      var wired := WiredAt(cfg, chain.world, p);
      if wired.None? {
        Stop(TrustRootsSet(p));
        return false;
      }
      if wired.value.address == circuit || wired.value.vendored {
        Keep(TrustRootsSet(p));
        return true;
      }
      ok := Rotate(p, circuit);
    }

    /** Moves a platform off a verifier without the vendored code, as far as its
        pin lets it. */
    method Rotate(p: Platform, circuit: Address) returns (ok: bool)
      requires Ready() && circuit == Context().CircuitAt(p)
      requires Answers(chain.world, PlatformVerifier(p), HonkVerifier) && !UsesVendored(cfg, chain.world, p)
      requires SlotsOf(chain.world, PlatformVerifier(p)).honk != circuit
      modifies `goals, chain
      ensures goals == old(goals) + [TrustRootsSet(p)] && Done(ok)
    {
      var vendored := Some(Vendored(cfg, CircuitOf(p)));
      var notary := PlatformNotaryAt(chain.world, p);
      if PinnedAt(chain.world, p) != Some(vendored) || CodeAt(chain.world, circuit) != vendored || notary.None? {
        Stop(TrustRootsSet(p));
        return false;
      }
      ok := Set(TrustRootsSet(p), PlatformVerifier(p), VerifyWith(notary.value, circuit));
    }

    method ConvergeJwtRoots() returns (ok: bool)
      requires Ready()
      modifies `goals, chain
      ensures goals == old(goals) + [GoogleRootsRead] && Done(ok)
    {
      var roots := RootsAt(chain.world);
      if roots.None? {
        Stop(GoogleRootsRead);
        return false;
      }
      if roots.value == At(cfg, GoogleJwtRoots) {
        Keep(GoogleRootsRead);
        return true;
      }
      ok := Set(GoogleRootsRead, PlatformVerifier(Google), ReadRootsFrom(At(cfg, GoogleJwtRoots)));
    }

    method RegisterPlatform(p: Platform) returns (ok: bool)
      requires Ready()
      modifies `goals, chain
      ensures goals == old(goals) + [Registered(p)] && Done(ok)
    {
      var registered := RegisteredAt(chain.world, p);
      if registered.None? {
        Stop(Registered(p));
        return false;
      }
      OwnIsPlaced(cfg, PlatformVerifier(p));
      if registered.value == At(cfg, PlatformVerifier(p)) {
        Keep(Registered(p));
        return true;
      }
      ok := Set(Registered(p), CeremonyProofVerifier, RegisterVerifier(p, At(cfg, PlatformVerifier(p))));
    }

    method PlatformHeadStep(p: Platform) returns (ok: bool, circuit: Address)
      requires Ready() && Located()
      modifies `goals, `deployed, `upgraded, chain
      ensures goals == old(goals) + PlatformHead(opts.upgrades, p) && Done(ok)
      ensures circuit == Context().CircuitAt(p)
    {
      var n := PlatformVerifier(p);
      HeadParts(goals, opts.upgrades, p);
      ok, circuit := CircuitVerifierStep(CircuitOf(p));
      if !ok {
        Abandon([Deployed(n)] + UpgradesOf(opts.upgrades, n));
        return;
      }
      ok := PlatformProxy(p, circuit);
      if !ok {
        Abandon(UpgradesOf(opts.upgrades, n));
        return;
      }
      ok := UpgradeIfRequested(n);
    }

    method ConvergeRoots(p: Platform) returns (ok: bool)
      requires Ready()
      modifies `goals, chain
      ensures goals == old(goals) + (if p.Google? then [GoogleRootsRead] else []) && Done(ok)
    {
      ok := true;
      if p.Google? { ok := ConvergeJwtRoots(); }
    }

    method PlatformTailStep(p: Platform, circuit: Address) returns (ok: bool)
      requires Ready() && circuit == Context().CircuitAt(p)
      modifies `goals, chain
      ensures goals == old(goals) + PlatformTail(p) && Done(ok)
    {
      ghost var reading := if p.Google? then [GoogleRootsRead] else [];
      AppendAssociates(goals, [TrustRootsSet(p)], reading);
      AppendAssociates(goals, [TrustRootsSet(p)] + reading, [Registered(p)]);
      ok := ConvergeTrustRoots(p, circuit);
      if !ok {
        Abandon(reading);
        Abandon([Registered(p)]);
        return;
      }
      ok := ConvergeRoots(p);
      if !ok {
        Abandon([Registered(p)]);
        return;
      }
      ok := RegisterPlatform(p);
    }

    method PlatformVerifierStep(p: Platform) returns (ok: bool)
      requires Ready() && Located()
      modifies `goals, `deployed, `upgraded, chain
      ensures goals == old(goals) + PlatformSection(opts.upgrades, p) && Done(ok)
    {
      PlatformParts(opts.upgrades, p);
      AppendAssociates(goals, PlatformHead(opts.upgrades, p), PlatformTail(p));
      var circuit;
      ok, circuit := PlatformHeadStep(p);
      if !ok {
        Abandon(PlatformTail(p));
        return;
      }
      ok := PlatformTailStep(p, circuit);
    }

    method PlatformSteps() returns (ok: bool)
      requires Ready() && Located()
      modifies `goals, `deployed, `upgraded, chain
      ensures goals == old(goals) + PlatformSections(opts.upgrades, LAUNCH) && Done(ok)
    {
      ok := true;
      for i := 0 to |LAUNCH|
        invariant ok && Ready() && goals == old(goals) + PlatformSections(opts.upgrades, LAUNCH[..i])
      {
        PlatformsStep(old(goals), opts.upgrades, LAUNCH, i);
        ok := PlatformVerifierStep(LAUNCH[i]);
        if !ok {
          Abandon(PlatformSections(opts.upgrades, LAUNCH[i + 1..]));
          return;
        }
      }
      assert LAUNCH[..|LAUNCH|] == LAUNCH;
    }

    method CheckAccepts(p: Platform) returns (ok: bool)
      requires Ready()
      modifies `goals
      ensures goals == old(goals) + [Accepting(p)] && Done(ok)
    {
      ok := AcceptsAt(cfg, chain.world, p) == Some(true);
      if ok { Keep(Accepting(p)); } else { Stop(Accepting(p)); }
    }

    /** The registry accepts every platform the run has registered. */
    method CheckAcceptsBindings() returns (ok: bool)
      requires Ready()
      modifies `goals
      ensures goals == old(goals) + ACCEPTING && Done(ok)
    {
      ok := true;
      for i := 0 to |LAUNCH|
        invariant ok && Ready() && goals == old(goals) + ACCEPTING[..i]
      {
        AcceptingStep(old(goals), i);
        ok := CheckAccepts(LAUNCH[i]);
        if !ok {
          Abandon(ACCEPTING[i + 1..]);
          return;
        }
      }
    }

    // ----- The owner of the factory -----

    method OfferOwnership(desired: Address) returns (ok: bool)
      requires Ready() && chain.world.factory.Some? && desired == OperationalOwner(cfg)
      requires chain.world.factory.value.owner == sender != desired
      modifies `goals, chain
      ensures goals == old(goals) + [OwnershipOffered] && Done(ok)
      ensures ok ==> chain.world.factory.Some? && chain.world.factory.value.owner == sender
    {
      if chain.world.factory.value.pending == desired {
        Keep(OwnershipOffered);
        return true;
      }
      ok := SendFor(OwnershipOffered, TransferOwnership(desired));
      assert deployed + [] == deployed;
    }

    /** On a dev chain the new owner's acceptance is sent for it. */
    method AcceptOnDev(desired: Address) returns (ok: bool)
      requires Ready() && chain.world.factory.Some? && desired == OperationalOwner(cfg)
      requires chain.world.factory.value.owner == sender != desired
      modifies `goals, chain
      ensures goals == old(goals) + [OwnershipAccepted] && Done(ok)
    {
      if !chain.world.dev {
        Keep(OwnershipAccepted);
        return true;
      }
      ok := SendFor(OwnershipAccepted, AcceptOwnership(desired));
      assert deployed + [] == deployed;
    }

    /** The factory is where it belongs, or not the deployer's to hand on. */
    ghost method LeaveFactory()
      requires Ready() && chain.world.factory.Some?
      requires chain.world.factory.value.owner == OperationalOwner(cfg) || chain.world.factory.value.owner != sender
      modifies `goals
      ensures Ready() && goals == old(goals) + OWNERSHIP
    {
      Keep(OwnershipOffered);
      Keep(OwnershipAccepted);
    }

    /** Hands the factory on: offered, and on a dev chain accepted. A factory
        in other hands is left there. */
    method ConvergeFactoryOwner(desired: Address) returns (ok: bool)
      requires Ready() && desired == OperationalOwner(cfg)
      modifies `goals, chain
      ensures goals == old(goals) + OWNERSHIP && Done(ok)
    {
      var factory := chain.world.factory;
      if factory.None? {
        Stop(OwnershipOffered);
        Abandon([OwnershipAccepted]);
        return false;
      }
      if factory.value.owner == desired || factory.value.owner != sender {
        LeaveFactory();
        return true;
      }
      ok := HandOn(desired);
    }

    /** Offers the deployer's factory on, and on a dev chain accepts it. */
    method HandOn(desired: Address) returns (ok: bool)
      requires Ready() && desired == OperationalOwner(cfg) && chain.world.factory.Some?
      requires chain.world.factory.value.owner == sender != desired
      modifies `goals, chain
      ensures goals == old(goals) + OWNERSHIP && Done(ok)
    {
      ok := OfferOwnership(desired);
      if !ok {
        Abandon([OwnershipAccepted]);
        return;
      }
      ok := AcceptOnDev(desired);
    }

    // ----- The Safes -----

    method CheckRelease() returns (ok: bool)
      ensures ok == HoldsRelease(chain.world)
    {
      ReleaseIsCanonical(chain.world);
      for i := 0 to |RELEASE|
        invariant forall j | 0 <= j < i :: IsCanonical(chain.world, j)
      {
        if !IsCanonical(chain.world, i) { return false; }
      }
      ok := true;
    }

    method CreateTheSafe(i: nat, safe: Address) returns (ok: bool)
      requires Ready() && MoveFor(Context(), SafeCreated(i), chain.world) == Send([CreateSafe(safe)])
      requires i < |cfg.safes| && safe == SafeAt(cfg.safes[i])
      modifies `goals, `deployed, chain
      ensures goals == old(goals) + [SafeCreated(i)] && Done(ok)
    {
      var created := SafeNamed(cfg.safes[i].name);
      var landed := SendAndLook(SafeCreated(i), CreateSafe(safe), [created]);
      SafeCreatedLook(Context(), i, chain.world);
      if !landed || safe !in chain.world.safes { return false; }
      deployed := deployed + [created];
      ok := true;
    }

    /** A Safe, created as the deployer's where it is missing. */
    method CreateMissingSafe(i: nat, safe: Address) returns (ok: bool)
      requires Ready() && i < |cfg.safes| && safe == SafeAt(cfg.safes[i])
      modifies `goals, `deployed, chain
      ensures goals == old(goals) + [SafeCreated(i)] && Done(ok)
    {
      SafeCreatedMove(Context(), i, chain.world);
      if safe in chain.world.safes {
        Keep(SafeCreated(i));
        ok := true;
      } else {
        ok := CreateTheSafe(i, safe);
      }
    }

    /** The Safe transaction that sets the declared owners. */
    method HandOverExec(i: nat, safe: Address, on: OwnerSet, declared: OwnerSet) returns (exec: ExecTransaction)
      requires sender == cfg.deployer && Valid(cfg) && SafesHealthy(chain.world)
      requires i < |cfg.safes| && safe == SafeAt(cfg.safes[i]) && declared == cfg.safes[i].Declared()
      requires ReadOwners(chain.world, safe) == Some(on) && !on.SameAs(declared) && on.SignsAlone(sender)
      ensures MoveFor(Context(), SafeHandedOver(i), chain.world) == Send([ExecSafe(safe, exec)])
    {
      AdmittedOwners(cfg, i);
      OnChainOwners(chain.world, safe);
      var calls := CallsTo(on, declared);
      exec := ExecBatch(safe, sender, calls);
      BatchIsHandOver(cfg, safe, on, declared, calls, exec);
      HandOverSends(Context(), i, chain.world, safe, on, declared, exec);
    }

    method HandOverSafe(i: nat, safe: Address, declared: OwnerSet, exec: ExecTransaction) returns (ok: bool)
      requires Ready() && i < |cfg.safes| && safe == SafeAt(cfg.safes[i]) && declared == cfg.safes[i].Declared()
      requires MoveFor(Context(), SafeHandedOver(i), chain.world) == Send([ExecSafe(safe, exec)])
      modifies `goals, chain
      ensures goals == old(goals) + [SafeHandedOver(i)] && Done(ok)
    {
      var landed := SendAndLook(SafeHandedOver(i), ExecSafe(safe, exec), []);
      HandOverLook(Context(), i, chain.world);
      var after := ReadOwners(chain.world, safe);
      ok := landed && after.Some? && after.value.SameAs(declared);
      assert deployed + [] == deployed;
    }

    /** Moves a Safe onto its declared owners while the deployer signs alone. */
    method ConvergeOwners(i: nat, safe: Address, declared: OwnerSet) returns (ok: bool)
      requires Ready() && i < |cfg.safes| && safe == SafeAt(cfg.safes[i]) && declared == cfg.safes[i].Declared()
      modifies `goals, chain
      ensures goals == old(goals) + [SafeHandedOver(i)] && Done(ok)
    {
      var on := ReadOwners(chain.world, safe);
      if on.None? {
        Stop(SafeHandedOver(i));
        return false;
      }
      if on.value.SameAs(declared) || !on.value.SignsAlone(sender) {
        Keep(SafeHandedOver(i));
        return true;
      }
      var exec := HandOverExec(i, safe, on.value, declared);
      ok := HandOverSafe(i, safe, declared, exec);
    }

    method SafeStep(i: nat) returns (ok: bool)
      requires Ready() && i < |cfg.safes|
      modifies `goals, `deployed, chain
      ensures goals == old(goals) + [SafeCreated(i), SafeHandedOver(i)] && Done(ok)
    {
      var safe := SafeAt(cfg.safes[i]);
      ok := CreateMissingSafe(i, safe);
      if !ok {
        Abandon([SafeHandedOver(i)]);
        return;
      }
      ok := ConvergeOwners(i, safe, cfg.safes[i].Declared());
    }

    /** Looked at only where the file declares a Safe. */
    method ReleaseStep() returns (ok: bool)
      requires Ready()
      modifies `goals
      ensures goals == old(goals) + [SafeReleaseChecked] && Done(ok)
    {
      ok := true;
      if cfg.safes != [] { ok := CheckRelease(); }
      if ok { Keep(SafeReleaseChecked); } else { Stop(SafeReleaseChecked); }
    }

    method SafesStep() returns (ok: bool)
      requires Ready()
      modifies `goals, `deployed, chain
      ensures goals == old(goals) + ([SafeReleaseChecked] + SafeGoals(cfg, 0)) && Done(ok)
    {
      AppendAssociates(goals, [SafeReleaseChecked], SafeGoals(cfg, 0));
      ok := ReleaseStep();
      if !ok {
        Abandon(SafeGoals(cfg, 0));
        return;
      }
      ok := AllSafes();
    }

    method AllSafes() returns (ok: bool)
      requires Ready()
      modifies `goals, `deployed, chain
      ensures goals == old(goals) + SafeGoals(cfg, 0) && Done(ok)
    {
      ghost var all := goals + SafeGoals(cfg, 0);
      for i := 0 to |cfg.safes|
        invariant Ready() && goals + SafeGoals(cfg, i) == all
      {
        AppendAssociates(goals, [SafeCreated(i), SafeHandedOver(i)], SafeGoals(cfg, i + 1));
        ok := SafeStep(i);
        if !ok {
          Abandon(SafeGoals(cfg, i + 1));
          return;
        }
      }
      assert goals + [] == goals;
      ok := true;
    }

    // ----- The run -----

    /** Which entry contracts the chain has, and whether it lacks any. */
    method LookAtContracts() returns (present: Presence, needed: bool)
      ensures present == PresenceOf(chain.world)
      ensures needed <==> exists n :: IsEntry(n) && n !in chain.world.proxies
    {
      present := PresenceOf(chain.world);
      needed := !(present.notaryService && present.proofVerifier && present.identityRegistry
                  && present.handleEscrow && present.jwtRoots);
      for i := 0 to |LAUNCH|
        invariant needed ==> exists n :: IsEntry(n) && n !in chain.world.proxies
        invariant !needed ==> present == Presence(true, true, true, true, true)
        invariant !needed ==> forall j :: 0 <= j < i ==> PlatformVerifier(LAUNCH[j]) in chain.world.proxies
      {
        needed := needed || PlatformVerifier(LAUNCH[i]) !in chain.world.proxies;
      }
      if !needed { AllEntriesPresent(chain.world); }
    }

    /** Where each circuit's verifier is, and whether one is missing there. */
    method LocateCircuits() returns (needed: bool)
      requires chain.world.proxies == start.proxies && chain.world.code == start.code
      modifies `circuits
      ensures Located()
      ensures needed <==> exists c :: CircuitMissing(Context(), chain.world, c)
    {
      needed := false;
      circuits := map[];
      for i := 0 to |CIRCUITS|
        invariant forall j :: 0 <= j < i ==>
          CIRCUITS[j] in circuits && circuits[CIRCUITS[j]] == Context().sites.Of(CIRCUITS[j])
        invariant needed <==> exists j :: 0 <= j < i && CircuitMissing(Context(), chain.world, CIRCUITS[j])
      {
        var site := LocateSite(cfg, chain.world, CIRCUITS[i]);
        SiteReads(cfg, start, chain.world, CIRCUITS[i]);
        if site.Named? { needed := needed || site.address !in chain.world.code; }
        circuits := circuits[CIRCUITS[i] := site];
      }
      forall c ensures c in circuits && circuits[c] == Context().sites.Of(c) {
        assert c == CIRCUITS[if c.BearerLink? then 0 else 1];
      }
      forall c | CircuitMissing(Context(), chain.world, c) ensures needed {
        assert c == CIRCUITS[if c.BearerLink? then 0 else 1];
      }
    }

    method FirstContracts(present: Presence) returns (ok: bool)
      requires Ready() && present == PresenceOf(chain.world)
      modifies `goals, `deployed, `upgraded, chain
      ensures goals == old(goals) + NotarySection(opts.upgrades) + ProofVerifierSection(opts.upgrades) && Done(ok)
      ensures present.identityRegistry == (IdentityRegistry in chain.world.proxies)
      ensures present.handleEscrow == (HandleEscrow in chain.world.proxies)
      ensures present.jwtRoots == (GoogleJwtRoots in chain.world.proxies)
    {
      ok := NotaryServiceStep(present.notaryService);
      if !ok {
        Abandon(ProofVerifierSection(opts.upgrades));
        return;
      }
      ok := ProofVerifierStep(present.proofVerifier);
    }

    method LastContracts(present: Presence) returns (ok: bool)
      requires Ready() && present.identityRegistry == (IdentityRegistry in chain.world.proxies)
      requires present.handleEscrow == (HandleEscrow in chain.world.proxies)
      requires present.jwtRoots == (GoogleJwtRoots in chain.world.proxies)
      modifies `goals, `deployed, `upgraded, chain
      ensures goals
              == old(goals) + RegistrySection(opts.upgrades) + EscrowSection(opts.upgrades) + RootsSection(opts.upgrades)
      ensures Done(ok)
    {
      ok := IdentityRegistryStep(present.identityRegistry);
      if !ok {
        Abandon(EscrowSection(opts.upgrades));
        Abandon(RootsSection(opts.upgrades));
        return;
      }
      ok := HandleEscrowStep(present.handleEscrow);
      if !ok {
        Abandon(RootsSection(opts.upgrades));
        return;
      }
      ok := JwtRootsStep(present.jwtRoots);
    }

    /** The entry contracts behind the gate, each from what the run saw of it. */
    method Contracts(present: Presence) returns (ok: bool)
      requires Ready() && present == PresenceOf(chain.world)
      modifies `goals, `deployed, `upgraded, chain
      ensures goals == old(goals) + CoreGoals(opts.upgrades) && Done(ok)
    {
      var u := opts.upgrades;
      AppendFive(goals, NotarySection(u), ProofVerifierSection(u), RegistrySection(u), EscrowSection(u), RootsSection(u));
      ok := FirstContracts(present);
      if !ok {
        Abandon(RegistrySection(u) + EscrowSection(u) + RootsSection(u));
        return;
      }
      ok := LastContracts(present);
    }

    method Stack(present: Presence) returns (ok: bool)
      requires Ready() && Located() && present == PresenceOf(chain.world)
      modifies `goals, `deployed, `upgraded, chain
      ensures goals == old(goals) + StackGoals(opts.upgrades) && Done(ok)
    {
      var u := opts.upgrades;
      StackParts(goals, u);
      ok := Contracts(present);
      if !ok {
        Abandon(PlatformSections(u, LAUNCH) + ACCEPTING);
        return;
      }
      ok := PlatformSteps();
      if !ok {
        Abandon(ACCEPTING);
        return;
      }
      ok := CheckAcceptsBindings();
    }

    /** Everything behind an installed factory. */
    method Gated() returns (ok: bool)
      requires Ready() && chain.world.proxies == start.proxies && chain.world.code == start.code
      modifies `goals, `deployed, `upgraded, `circuits, chain
      ensures goals == old(goals) + ([FactoryOwned] + StackGoals(opts.upgrades)) && Done(ok)
    {
      AppendAssociates(goals, [FactoryOwned], StackGoals(opts.upgrades));
      var present, contracts := LookAtContracts();
      var verifiers := LocateCircuits();
      NeedsFactoryIs(Context(), chain.world);
      ok := EnsureFactoryOwnership(contracts || verifiers);
      if !ok {
        Abandon(StackGoals(opts.upgrades));
        return;
      }
      ok := Stack(present);
    }

    method Front() returns (ok: bool)
      requires Ready() && goals == [] && chain.world == start
      modifies `goals, `deployed, `upgraded, `circuits, chain
      ensures goals == FrontGoals(opts.upgrades) && Done(ok)
    {
      ghost var gated := [FactoryOwned] + StackGoals(opts.upgrades);
      AppendAssociates(INSTALL, [FactoryOwned], StackGoals(opts.upgrades));
      assert [] + INSTALL == INSTALL;
      ok := Install();
      if !ok {
        Abandon(gated);
        return;
      }
      ok := Gated();
    }

    method Back() returns (ok: bool)
      requires Ready()
      modifies `goals, `deployed, chain
      ensures goals == old(goals) + BackGoals(cfg) && Done(ok)
    {
      AppendAssociates(OWNERSHIP, [SafeReleaseChecked], SafeGoals(cfg, 0));
      AppendAssociates(goals, OWNERSHIP, [SafeReleaseChecked] + SafeGoals(cfg, 0));
      ok := ConvergeFactoryOwner(OperationalOwner(cfg));
      if !ok {
        Abandon([SafeReleaseChecked] + SafeGoals(cfg, 0));
        return;
      }
      ok := SafesStep();
    }

    /** Converges the chain onto the file: what lands, what the chain becomes
        and what is reported are those of the run of the file's goals. */
    method Converge() returns (ok: bool)
      requires Valid(cfg) && SafesHealthy(chain.world) && (forall n :: n in opts.upgrades ==> IsEntry(n))
      requires deployed == [] && upgraded == []
      modifies this, chain
      ensures var out := RunAll(cfg, sender, opts, old(chain.world));
              && ok == out.ok && chain.world == out.world && chain.log == old(chain.log) + out.trace
              && (ok ==> deployed == out.deployed && upgraded == out.upgraded)
      ensures sender != cfg.deployer ==> !ok && chain.world == old(chain.world) && chain.log == old(chain.log)
    {
      if sender != cfg.deployer { return false; }
      start, before, goals := chain.world, chain.log, [];
      ok := Front();
      if ok {
        UpgradesRunOnce(Context(), opts.upgrades, start);
        // a component without a section would have been dropped
        ok := |upgraded| == |opts.upgrades|;
      }
      if ok {
        ok := Back();
      } else {
        Abandon(BackGoals(cfg));
      }
    }
  }

  /** One apply: refused on another chain, else the run. */
  method ApplyFile(cfg: NetworkConfig, sender: Address, opts: Options, chain: Chain)
    returns (ok: bool, deployed: seq<Component>, upgraded: seq<Name>)
    requires Valid(cfg) && SafesHealthy(chain.world) && (forall n :: n in opts.upgrades ==> IsEntry(n))
    modifies chain
    ensures old(chain.world.chainId) != cfg.chainId || sender != cfg.deployer ==>
              !ok && chain.world == old(chain.world) && chain.log == old(chain.log)
    ensures old(chain.world.chainId) == cfg.chainId ==>
              var out := RunAll(cfg, sender, opts, old(chain.world));
              && ok == out.ok && chain.world == out.world && chain.log == old(chain.log) + out.trace
              && (ok ==> deployed == out.deployed && upgraded == out.upgraded)
  {
    if chain.world.chainId != cfg.chainId { return false, [], []; }
    var applier := new Applier(cfg, sender, opts, chain);
    ok := applier.Converge();
    deployed, upgraded := applier.deployed, applier.upgraded;
  }

  lemma ImplementationLands(cfg: NetworkConfig, n: Name, w: World)
    ensures Apply(cfg, DeployImplementation(n), w) == Some(w)
  {
  }

  lemma DeploySends(ctx: Ctx, n: Name, w: World)
    requires n !in w.proxies && w.factory.Some? && n !in w.factory.value.records
    requires n.PlatformVerifier? ==> CodeAt(w, ctx.CircuitAt(n.platform)) == Some(Vendored(ctx.cfg, CircuitOf(n.platform)))
    ensures MoveFor(ctx, Deployed(n), w) == Send([DeployImplementation(n), DeployProxy(n, InitialSlots(ctx, n))])
  {
  }

  lemma OnlyItsProxy(cfg: NetworkConfig, n: Name, slots: Slots, w: World)
    requires Apply(cfg, DeployProxy(n, slots), w).Some?
    ensures Apply(cfg, DeployProxy(n, slots), w).value.proxies.Keys == w.proxies.Keys + {n}
  {
  }

  lemma SetterKeepsKeys(cfg: NetworkConfig, n: Name, change: Change, w: World)
    ensures var next := Apply(cfg, SetOn(n, change), w); next.Some? ==> next.value.proxies.Keys == w.proxies.Keys
  {
  }

  lemma NothingToConfirm(ctx: Ctx, g: Goal, w: World)
    requires StackGoal(g)
    ensures Confirmed(ctx, g, w)
  {
  }

  lemma UpgradeKeepsKeys(cfg: NetworkConfig, n: Name, w: World)
    requires Apply(cfg, Upgrade(n), w).Some?
    ensures Apply(cfg, Upgrade(n), w).value.proxies.Keys == w.proxies.Keys
  {
  }

  lemma UpgradeStep(before: seq<Goal>, u: seq<Name>, n: Name, i: nat)
    requires i < |u|
    ensures before + UpgradesOf(u[..i], n) + UpgradesOf([u[i]], n) == before + UpgradesOf(u[..i + 1], n)
    ensures before + UpgradesOf(u[..i + 1], n) + UpgradesOf(u[i + 1..], n) == before + UpgradesOf(u, n)
  {
    assert u[..i + 1] == u[..i] + [u[i]] && u == u[..i + 1] + u[i + 1..];
    UpgradesOfAppend(u[..i], [u[i]], n);
    UpgradesOfAppend(u[..i + 1], u[i + 1..], n);
    AppendAssociates(before, UpgradesOf(u[..i], n), UpgradesOf([u[i]], n));
    AppendAssociates(before, UpgradesOf(u[..i + 1], n), UpgradesOf(u[i + 1..], n));
  }

  // ----- The goals of the loops -----

  function PlatformHead(u: seq<Name>, p: Platform): seq<Goal> {
    [CircuitDeployed(CircuitOf(p)), Deployed(PlatformVerifier(p))] + UpgradesOf(u, PlatformVerifier(p))
  }

  lemma HeadParts(before: seq<Goal>, u: seq<Name>, p: Platform)
    ensures var upgrades := UpgradesOf(u, PlatformVerifier(p));
            && before + [CircuitDeployed(CircuitOf(p))] + ([Deployed(PlatformVerifier(p))] + upgrades)
               == before + PlatformHead(u, p)
            && before + [CircuitDeployed(CircuitOf(p))] + [Deployed(PlatformVerifier(p))] + upgrades
               == before + PlatformHead(u, p)
  {
  }

  lemma AcceptingStep(before: seq<Goal>, i: nat)
    requires i < |ACCEPTING|
    ensures before + ACCEPTING[..i] + [Accepting(LAUNCH[i])] == before + ACCEPTING[..i + 1]
    ensures before + ACCEPTING[..i + 1] + ACCEPTING[i + 1..] == before + ACCEPTING
  {
    assert ACCEPTING[i] == Accepting(LAUNCH[i]);
  }

  function PlatformSections(u: seq<Name>, platforms: seq<Platform>): seq<Goal> {
    if platforms == [] then [] else PlatformSection(u, platforms[0]) + PlatformSections(u, platforms[1..])
  }

  lemma {:induction false} PlatformSectionsAppend(u: seq<Name>, a: seq<Platform>, b: seq<Platform>)
    ensures PlatformSections(u, a + b) == PlatformSections(u, a) + PlatformSections(u, b)
  {
    if a == [] {
      assert a + b == b;
    } else {
      assert (a + b)[1..] == a[1..] + b && (a + b)[0] == a[0];
      PlatformSectionsAppend(u, a[1..], b);
      AppendAssociates(PlatformSection(u, a[0]), PlatformSections(u, a[1..]), PlatformSections(u, b));
    }
  }

  lemma OnePlatform(u: seq<Name>, p: Platform)
    ensures PlatformSections(u, [p]) == PlatformSection(u, p)
  {
    assert [p][1..] == [];
    assert PlatformSection(u, p) + [] == PlatformSection(u, p);
  }

  lemma PlatformsStep(before: seq<Goal>, u: seq<Name>, platforms: seq<Platform>, i: nat)
    requires i < |platforms|
    ensures before + PlatformSections(u, platforms[..i]) + PlatformSection(u, platforms[i])
            == before + PlatformSections(u, platforms[..i + 1])
    ensures before + PlatformSections(u, platforms[..i + 1]) + PlatformSections(u, platforms[i + 1..])
            == before + PlatformSections(u, platforms)
  {
    var done, one, left := platforms[..i], [platforms[i]], platforms[i + 1..];
    assert platforms[..i + 1] == done + one && platforms == platforms[..i + 1] + left;
    OnePlatform(u, platforms[i]);
    PlatformSectionsAppend(u, done, one);
    PlatformSectionsAppend(u, platforms[..i + 1], left);
    AppendAssociates(before, PlatformSections(u, done), PlatformSection(u, platforms[i]));
    AppendAssociates(before, PlatformSections(u, platforms[..i + 1]), PlatformSections(u, left));
  }

  // ----- What the steps read -----

  lemma AdmittedOwners(cfg: NetworkConfig, i: nat)
    requires Valid(cfg) && i < |cfg.safes|
    ensures Distinct(cfg.safes[i].Declared().owners)
  {
    assert AdmittedSafe(cfg, cfg.safes[i]);
    AdmittedIsUsable(cfg.safes[i], SafeAt(cfg.safes[i]));
  }

  lemma SafeCreatedMove(ctx: Ctx, i: nat, w: World)
    requires i < |ctx.cfg.safes|
    ensures var safe := SafeAt(ctx.cfg.safes[i]);
            MoveFor(ctx, SafeCreated(i), w) == if safe in w.safes then Move.Keep else Send([CreateSafe(safe)])
  {
  }

  lemma SafeCreatedLook(ctx: Ctx, i: nat, w: World)
    requires i < |ctx.cfg.safes|
    ensures Confirmed(ctx, SafeCreated(i), w) == (SafeAt(ctx.cfg.safes[i]) in w.safes)
    ensures Reported(ctx, SafeCreated(i)) == [SafeNamed(ctx.cfg.safes[i].name)]
  {
  }

  lemma RegistryPointerMove(ctx: Ctx, w: World)
    ensures var pointer, wanted := PointerAt(w, IdentityRegistry, ProofVerifier), At(ctx.cfg, CeremonyProofVerifier);
            MoveFor(ctx, RegistryWired, w)
            == if pointer.None? then Move.Stop else if pointer.value == wanted then Move.Keep
               else Send([SetOn(IdentityRegistry, PointAt(wanted))])
  {
  }

  lemma RootsPointerMove(ctx: Ctx, w: World)
    ensures var pointer, wanted := PointerAt(w, GoogleJwtRoots, RootsNotary), At(ctx.cfg, NotaryService);
            MoveFor(ctx, RootsWired, w)
            == if pointer.None? then Move.Stop else if pointer.value == wanted then Move.Keep
               else Send([SetOn(GoogleJwtRoots, PointAt(wanted))])
  {
  }

  lemma HandOverLook(ctx: Ctx, i: nat, w: World)
    requires i < |ctx.cfg.safes|
    ensures var after := ReadOwners(w, SafeAt(ctx.cfg.safes[i]));
            Confirmed(ctx, SafeHandedOver(i), w) == (after.Some? && after.value.SameAs(ctx.cfg.safes[i].Declared()))
    ensures Reported(ctx, SafeHandedOver(i)) == []
  {
  }

  lemma BatchIsHandOver(cfg: NetworkConfig, safe: Address, on: OwnerSet, declared: OwnerSet,
                        calls: seq<Bytes>, exec: ExecTransaction)
    requires calls == EncodeAll(Program(on, declared)) && exec == Batch(safe, cfg.deployer, calls)
    ensures IsHandOver(cfg, safe, on, declared, exec)
  {
  }

  ghost predicate IsHandOver(cfg: NetworkConfig, safe: Address, on: OwnerSet, declared: OwnerSet, exec: ExecTransaction) {
    HandOver(cfg, safe, on, declared) == ExecSafe(safe, exec)
  }

  lemma HandOverSends(ctx: Ctx, i: nat, w: World, safe: Address, on: OwnerSet, declared: OwnerSet, exec: ExecTransaction)
    requires i < |ctx.cfg.safes| && safe == SafeAt(ctx.cfg.safes[i]) && declared == ctx.cfg.safes[i].Declared()
    requires ReadOwners(w, safe) == Some(on) && !on.SameAs(declared) && on.SignsAlone(ctx.cfg.deployer)
    requires IsHandOver(ctx.cfg, safe, on, declared, exec)
    ensures MoveFor(ctx, SafeHandedOver(i), w) == Send([ExecSafe(safe, exec)])
  {
  }

  lemma OnChainOwners(w: World, safe: Address)
    requires SafesHealthy(w) && ReadOwners(w, safe).Some?
    ensures var on := ReadOwners(w, safe).value; Distinct(on.owners) && on.threshold <= |on.owners|
  {
    assert Healthy(safe, w.safes[safe]);
  }

  /** The five flags a run reads before it sends anything of the stack. */
  datatype Presence = Presence(
    notaryService: bool, proofVerifier: bool, identityRegistry: bool, handleEscrow: bool, jwtRoots: bool)

  function PresenceOf(w: World): Presence {
    Presence(NotaryService in w.proxies, CeremonyProofVerifier in w.proxies, IdentityRegistry in w.proxies,
      HandleEscrow in w.proxies, GoogleJwtRoots in w.proxies)
  }

  lemma AllEntriesPresent(w: World)
    requires PresenceOf(w) == Presence(true, true, true, true, true)
    requires forall j :: 0 <= j < |LAUNCH| ==> PlatformVerifier(LAUNCH[j]) in w.proxies
    ensures forall n :: IsEntry(n) ==> n in w.proxies
  {
    assert LAUNCH[0] == X && LAUNCH[1] == GitHub && LAUNCH[2] == Google;
    forall n | IsEntry(n) ensures n in w.proxies {
      if n.PlatformVerifier? { assert n.platform == X || n.platform == GitHub || n.platform == Google; }
    }
  }

  lemma SiteReads(cfg: NetworkConfig, a: World, b: World, c: Circuit)
    requires a.proxies == b.proxies && a.code == b.code
    ensures SiteOf(cfg, a, c) == SiteOf(cfg, b, c)
  {
  }

  lemma NeedsFactoryIs(ctx: Ctx, w: World)
    ensures NeedsFactory(ctx, w) <==>
      (exists n :: IsEntry(n) && n !in w.proxies) || (exists c :: CircuitMissing(ctx, w, c))
  {
    if n :| IsEntry(n) && n !in w.proxies { EntriesComplete(n); }
    if n :| n in ENTRIES && n !in w.proxies {
      var i :| 0 <= i < |ENTRIES| && ENTRIES[i] == n;
      EntriesAreEntries(i);
    }
    if c :| CircuitMissing(ctx, w, c) { assert c == BearerLink || c == OidcGoogle; }
  }

  function CoreGoals(u: seq<Name>): seq<Goal> {
    NotarySection(u) + ProofVerifierSection(u) + RegistrySection(u) + EscrowSection(u) + RootsSection(u)
  }

  lemma AppendFive(at: seq<Goal>, a: seq<Goal>, b: seq<Goal>, c: seq<Goal>, d: seq<Goal>, e: seq<Goal>)
    ensures at + a + b + c + d + e == at + (a + b + c + d + e)
    ensures at + a + b + (c + d + e) == at + (a + b + c + d + e)
  {
  }

  lemma StackParts(before: seq<Goal>, u: seq<Name>)
    ensures before + CoreGoals(u) + PlatformSections(u, LAUNCH) + ACCEPTING == before + StackGoals(u)
    ensures before + CoreGoals(u) + (PlatformSections(u, LAUNCH) + ACCEPTING) == before + StackGoals(u)
  {
    var x, github, google := PlatformSection(u, X), PlatformSection(u, GitHub), PlatformSection(u, Google);
    assert LAUNCH[1..] == [GitHub, Google] && [GitHub, Google][1..] == [Google];
    OnePlatform(u, Google);
    assert PlatformSections(u, LAUNCH) == x + (github + google);
    StackAssociates(before, CoreGoals(u), x, github, google, ACCEPTING);
  }

  lemma StackAssociates(at: seq<Goal>, core: seq<Goal>, x: seq<Goal>, y: seq<Goal>, z: seq<Goal>, last: seq<Goal>)
    ensures at + core + (x + (y + z)) + last == at + (core + x + y + z + last)
    ensures at + core + ((x + (y + z)) + last) == at + (core + x + y + z + last)
  {
  }
}
