/** A run succeeds: on a virgin chain, and on one that holds any part of the
    stack under the deployer's keys, whatever its settings, once every proxy
    too old for the file is among the requested upgrades. */
module Progress {
  import opened Prelude
  import opened OwnerSets
  import opened OwnerManager
  import opened Config
  import opened Worlds
  import opened Converge
  import opened Stability
  import opened Interruption
  import opened Sites
  import opened Convergence
  import opened GoalState
  import opened Flow
  import opened Tracking
  import opened SafeHistory

  // ----- A chain of this release -----

  /** An implementation that does for the file what the embedded one does. */
  predicate Serves(cfg: NetworkConfig, n: Name, impl: Impl) {
    Interface(n) <= impl.answers && (n.PlatformVerifier? ==> impl.pins == Some(Vendored(cfg, CircuitOf(n.platform))))
  }

  /** Every proxy answers to the deployer and serves the file, or is `stale` and
      can at least be upgraded; the escrow, which cannot be moved, is bound to
      the declared registry. */
  ghost predicate OwnProxies(cfg: NetworkConfig, stale: set<Name>, w: World) {
    && (forall n :: n in w.proxies ==>
          && IsEntry(n) && w.proxies[n].owner == cfg.deployer
          && (Serves(cfg, n, w.proxies[n].impl) || (n in stale && UpgradeToAndCall in w.proxies[n].impl.answers)))
    && (HandleEscrow in w.proxies ==> w.proxies[HandleEscrow].slots.pointer == At(cfg, IdentityRegistry))
  }

  /** The chain can host the stack, and holds nothing foreign under its names. */
  ghost predicate Hospitable(cfg: NetworkConfig, w: World) {
    && RecordsHold(cfg, w) && SafesHealthy(w)
    && (w.create2Deployer || w.acceptsKeyless) && (w.factory.Some? || w.standardCreate2)
    && NameHoldsVendored(cfg, w, BearerLink) && NameHoldsVendored(cfg, w, OidcGoogle)
    && (cfg.safes != [] ==> HoldsRelease(w))
    && Readable(w)
  }

  /** The deployer can take the factory, or nothing needs it. */
  predicate GateOpens(ctx: Ctx, w: World) {
    w.factory.Some? ==>
      || w.factory.value.owner == ctx.cfg.deployer || w.factory.value.pending == ctx.cfg.deployer
      || !NeedsFactory(ctx, w)
  }

  /** What a run keeps from start to end. */
  ghost predicate Own(ctx: Ctx, stale: set<Name>, w: World) {
    && OwnProxies(ctx.cfg, stale, w) && Hospitable(ctx.cfg, w) && SitesStillVendored(ctx, w)
    && (w.factory.Some? || ctx.confirm) && GateOpens(ctx, w)
  }

  // ----- What each goal relies on -----

  /** Goals that have to be met before a goal is. */
  function Needs(g: Goal): set<Goal> {
    match g
    case FactoryInstalled => {Create2DeployerInstalled}
    case FactoryOwned => {FactoryInstalled}
    case Deployed(HandleEscrow) => {FactoryInstalled, FactoryOwned, Deployed(IdentityRegistry)}
    case Deployed(PlatformVerifier(p)) => {FactoryInstalled, FactoryOwned, CircuitDeployed(CircuitOf(p))}
    case Deployed(_) => {FactoryInstalled, FactoryOwned}
    case CircuitDeployed(_) => {FactoryInstalled, FactoryOwned}
    case Upgraded(n) => {Deployed(n)}
    case NotaryTrusted => {Deployed(NotaryService)}
    case FeeCharged => {Deployed(NotaryService)}
    case RecipientSet => {Deployed(NotaryService)}
    case RegistryWired => {Deployed(IdentityRegistry)}
    case EscrowBound => {Deployed(HandleEscrow)}
    case RootsWired => {Deployed(GoogleJwtRoots)}
    case TrustRootsSet(p) => {Deployed(PlatformVerifier(p)), CircuitDeployed(CircuitOf(p))}
    case GoogleRootsRead => {Deployed(PlatformVerifier(Google))}
    case Registered(_) => {Deployed(CeremonyProofVerifier)}
    case Accepting(p) => {Deployed(IdentityRegistry), RegistryWired, Deployed(CeremonyProofVerifier), Registered(p)}
    case OwnershipOffered => {FactoryInstalled}
    case OwnershipAccepted => {FactoryInstalled, OwnershipOffered}
    case SafeHandedOver(i) => {SafeCreated(i)}
    case _ => {}
  }

  /** Each goal comes after those it relies on. */
  ghost predicate Follows(met: set<Goal>, goals: seq<Goal>)
    decreases |goals|
  {
    goals == [] || (Needs(goals[0]) <= met && Follows(met + {goals[0]}, goals[1..]))
  }

  lemma {:induction false} FollowsMore(met: set<Goal>, more: set<Goal>, goals: seq<Goal>)
    requires Follows(met, goals) && met <= more
    ensures Follows(more, goals)
    decreases |goals|
  {
    if goals != [] { FollowsMore(met + {goals[0]}, more + {goals[0]}, goals[1..]); }
  }

  lemma {:induction false} FollowsAppend(met: set<Goal>, a: seq<Goal>, b: seq<Goal>)
    requires Follows(met, a) && Follows(met + Elements(a), b)
    ensures Follows(met, a + b)
    decreases |a|
  {
    if a == [] {
      assert a + b == b && met + Elements(a) == met;
    } else {
      assert (a + b)[1..] == a[1..] + b;
      ElementsCons(a);
      assert met + Elements(a) == met + {a[0]} + Elements(a[1..]);
      FollowsAppend(met + {a[0]}, a[1..], b);
    }
  }

  lemma {:induction false} FollowsAt(met: set<Goal>, goals: seq<Goal>, i: nat, q: Goal)
    requires Follows(met, goals) && i < |goals| && q in Needs(goals[i])
    ensures q in met || q in goals[..i]
    decreases |goals|
  {
    if i > 0 {
      FollowsAt(met + {goals[0]}, goals[1..], i - 1, q);
      assert goals[..i] == [goals[0]] + goals[1..][..i - 1];
    }
  }

  // ----- One goal succeeds -----

  ghost predicate NeedsMet(ctx: Ctx, g: Goal, w: World) {
    forall q :: q in Needs(g) ==> Met(ctx, q, w)
  }

  /** The goal needs nothing, or its transaction lands and does its work. */
  predicate Succeeds(ctx: Ctx, g: Goal, w: World) {
    match MoveFor(ctx, g, w)
    case Keep => true
    case Reuse => true
    case Stop => false
    case Send(_) =>
      var next := Apply(ctx.cfg, Act(ctx, g, w), w);
      next.Some? && Confirmed(ctx, g, next.value)
  }

  lemma SucceedsMeans(ctx: Ctx, g: Goal, w: World)
    requires Succeeds(ctx, g, w)
    ensures Perform(ctx, g, w).ok
  {
    if MoveFor(ctx, g, w).Send? { PerformSends(ctx, g, w); }
  }

  lemma NeedIsMet(ctx: Ctx, g: Goal, w: World, q: Goal)
    requires NeedsMet(ctx, g, w) && q in Needs(g)
    ensures Met(ctx, q, w)
  {
  }

  lemma NeededProxy(ctx: Ctx, g: Goal, w: World, n: Name)
    requires NeedsMet(ctx, g, w) && Deployed(n) in Needs(g)
    ensures n in w.proxies
  {
    NeedIsMet(ctx, g, w, Deployed(n));
  }

  /** The proxy a setting goes through. */
  function ProxyOf(g: Goal): Name {
    match g
    case RegistryWired => IdentityRegistry
    case EscrowBound => HandleEscrow
    case RootsWired => GoogleJwtRoots
    case GoogleRootsRead => PlatformVerifier(Google)
    case Registered(_) => CeremonyProofVerifier
    case _ => NotaryService
  }

  predicate GoesThroughProxy(g: Goal) {
    g.NotaryTrusted? || g.FeeCharged? || g.RecipientSet? || g.RegistryWired? || g.RootsWired?
    || g.GoogleRootsRead? || g.Registered? || g.EscrowBound?
  }

  /** Each setter goal is a getter, a setter and the check between them. */
  lemma SetterMove(ctx: Ctx, g: Goal, w: World)
    requires GoesThroughProxy(g) && ProxyOf(g) in w.proxies && Serves(ctx.cfg, ProxyOf(g), w.proxies[ProxyOf(g)].impl)
    requires g.EscrowBound? ==> w.proxies[HandleEscrow].slots.pointer == At(ctx.cfg, IdentityRegistry)
    ensures MoveFor(ctx, g, w).Keep?
            || (MoveFor(ctx, g, w).Send? && Act(ctx, g, w).SetOn? && Act(ctx, g, w).name == ProxyOf(g)
                && !Act(ctx, g, w).change.VerifyWith?
                && Setter(ProxyOf(g), Act(ctx, g, w).change) in Interface(ProxyOf(g)))
  {
  }

  lemma SetterLands(cfg: NetworkConfig, n: Name, change: Change, w: World)
    requires n in w.proxies && w.proxies[n].owner == cfg.deployer && Serves(cfg, n, w.proxies[n].impl)
    requires Setter(n, change) in Interface(n) && !change.VerifyWith?
    ensures Apply(cfg, SetOn(n, change), w).Some?
  {
  }

  lemma SetterSucceeds(ctx: Ctx, g: Goal, stale: set<Name>, w: World)
    requires OwnProxies(ctx.cfg, stale, w) && GoesThroughProxy(g)
    requires ProxyOf(g) in w.proxies && ProxyOf(g) !in stale
    ensures Succeeds(ctx, g, w)
  {
    SetterMove(ctx, g, w);
    if MoveFor(ctx, g, w).Send? { SetterLands(ctx.cfg, ProxyOf(g), Act(ctx, g, w).change, w); }
  }

  lemma CircuitHolds(ctx: Ctx, w: World, c: Circuit)
    requires Located(ctx) && Hospitable(ctx.cfg, w) && SitesStillVendored(ctx, w)
    requires Met(ctx, CircuitDeployed(c), w)
    ensures CodeAt(w, ctx.sites.Of(c).address) == Some(Vendored(ctx.cfg, c))
  {
  }

  lemma TrustRootsSucceeds(ctx: Ctx, stale: set<Name>, w: World, p: Platform)
    requires OwnProxies(ctx.cfg, stale, w) && PlatformVerifier(p) in w.proxies && PlatformVerifier(p) !in stale
    requires CodeAt(w, ctx.CircuitAt(p)) == Some(Vendored(ctx.cfg, CircuitOf(p)))
    ensures Succeeds(ctx, TrustRootsSet(p), w)
  {
    assert Serves(ctx.cfg, PlatformVerifier(p), w.proxies[PlatformVerifier(p)].impl);
  }

  lemma DeployerHoldsTheGate(ctx: Ctx, w: World)
    requires Met(ctx, FactoryInstalled, w) && Met(ctx, FactoryOwned, w) && NeedsFactory(ctx, w)
    ensures w.factory.Some? && w.factory.value.owner == ctx.cfg.deployer
  {
  }

  lemma UnrecordedWhereAbsent(cfg: NetworkConfig, w: World, n: Name)
    requires RecordsHold(cfg, w) && w.factory.Some? && !Present(cfg, w, n)
    ensures n !in w.factory.value.records
  {
  }

  lemma DeployLands(cfg: NetworkConfig, w: World, n: Name, slots: Slots)
    requires w.factory.Some? && w.factory.value.owner == cfg.deployer
    requires n !in w.factory.value.records && n !in w.proxies && IsEntry(n)
    requires Initializes(cfg, w, n, slots)
    ensures Apply(cfg, DeployProxy(n, slots), w).Some?
  {
  }

  lemma InitialIsAccepted(ctx: Ctx, stale: set<Name>, w: World, n: Name)
    requires Valid(ctx.cfg) && OwnProxies(ctx.cfg, stale, w) && IsEntry(n)
    requires n == HandleEscrow ==> IdentityRegistry in w.proxies && IdentityRegistry !in stale
    requires n.PlatformVerifier? ==>
      CodeAt(w, ctx.CircuitAt(n.platform)) == Some(Vendored(ctx.cfg, CircuitOf(n.platform)))
    ensures Initializes(ctx.cfg, w, n, InitialSlots(ctx, n))
  {
    if n == HandleEscrow { assert Serves(ctx.cfg, IdentityRegistry, w.proxies[IdentityRegistry].impl); }
    OwnIsPlaced(ctx.cfg, NotaryService);
    OwnIsPlaced(ctx.cfg, GoogleJwtRoots);
  }

  lemma DeploySends(ctx: Ctx, w: World, n: Name)
    requires n !in w.proxies && w.factory.Some? && n !in w.factory.value.records
    requires n.PlatformVerifier? ==>
      CodeAt(w, ctx.CircuitAt(n.platform)) == Some(Vendored(ctx.cfg, CircuitOf(n.platform)))
    ensures MoveFor(ctx, Deployed(n), w).Send? && Act(ctx, Deployed(n), w) == DeployProxy(n, InitialSlots(ctx, n))
  {
  }

  lemma DeploySucceeds(ctx: Ctx, stale: set<Name>, w: World, n: Name)
    requires Valid(ctx.cfg) && Own(ctx, stale, w) && Located(ctx) && IsEntry(n)
    requires Met(ctx, FactoryInstalled, w) && Met(ctx, FactoryOwned, w)
    requires n == HandleEscrow ==> IdentityRegistry in w.proxies && IdentityRegistry !in stale
    requires n.PlatformVerifier? ==>
      CodeAt(w, ctx.CircuitAt(n.platform)) == Some(Vendored(ctx.cfg, CircuitOf(n.platform)))
    ensures Succeeds(ctx, Deployed(n), w)
  {
    if n !in w.proxies {
      EntriesComplete(n);
      DeployerHoldsTheGate(ctx, w);
      UnrecordedWhereAbsent(ctx.cfg, w, n);
      InitialIsAccepted(ctx, stale, w, n);
      DeploySends(ctx, w, n);
      DeployLands(ctx.cfg, w, n, InitialSlots(ctx, n));
    }
  }

  lemma CircuitSucceeds(ctx: Ctx, w: World, c: Circuit)
    requires Hospitable(ctx.cfg, w) && Located(ctx)
    requires Met(ctx, FactoryInstalled, w) && Met(ctx, FactoryOwned, w)
    ensures Succeeds(ctx, CircuitDeployed(c), w)
  {
    if CircuitMissing(ctx, w, c) {
      DeployerHoldsTheGate(ctx, w);
      UnrecordedWhereAbsent(ctx.cfg, w, OwnVerifier(ctx.cfg, c));
    }
  }

  /** Stale or not, a proxy takes the new implementation. */
  lemma UpgradeSucceeds(ctx: Ctx, stale: set<Name>, w: World, n: Name)
    requires OwnProxies(ctx.cfg, stale, w) && n in w.proxies
    ensures Succeeds(ctx, Upgraded(n), w)
  {
    assert IsEntry(n);
  }

  lemma RoutedMeans(ctx: Ctx, w: World, p: Platform)
    requires At(ctx.cfg, PlatformVerifier(p)) != ZERO
    requires Met(ctx, RegistryWired, w) && Met(ctx, Registered(p), w)
    requires Answers(w, IdentityRegistry, AcceptsBindings)
    ensures AcceptsNow(ctx.cfg, w, p)
  {
  }

  lemma AcceptingSucceeds(ctx: Ctx, stale: set<Name>, w: World, p: Platform)
    requires Valid(ctx.cfg) && OwnProxies(ctx.cfg, stale, w)
    requires IdentityRegistry in w.proxies && IdentityRegistry !in stale
    requires Met(ctx, RegistryWired, w) && Met(ctx, Registered(p), w)
    ensures Succeeds(ctx, Accepting(p), w)
  {
    FreshAnswers(ctx.cfg, stale, w, IdentityRegistry, AcceptsBindings);
    OwnIsPlaced(ctx.cfg, PlatformVerifier(p));
    RoutedMeans(ctx, w, p);
    AcceptedSucceeds(ctx, w, p);
  }

  lemma FreshAnswers(cfg: NetworkConfig, stale: set<Name>, w: World, n: Name, m: Method)
    requires OwnProxies(cfg, stale, w) && n in w.proxies && n !in stale && m in Interface(n)
    ensures Answers(w, n, m)
  {
    assert Serves(cfg, n, w.proxies[n].impl);
  }

  lemma AcceptedSucceeds(ctx: Ctx, w: World, p: Platform)
    requires AcceptsNow(ctx.cfg, w, p)
    ensures Succeeds(ctx, Accepting(p), w)
  {
  }

  lemma HandOverSends(ctx: Ctx, w: World, i: nat) returns (w': World)
    requires Valid(ctx.cfg) && SafesHealthy(w) && i < |ctx.cfg.safes|
    requires MoveFor(ctx, SafeHandedOver(i), w).Send?
    ensures var decl := ctx.cfg.safes[i];
            && Apply(ctx.cfg, Act(ctx, SafeHandedOver(i), w), w) == Some(w')
            && SafeAt(decl) in w'.safes && w' == w.(safes := w.safes[SafeAt(decl) := w'.safes[SafeAt(decl)]])
            && OwnersOf(w'.safes[SafeAt(decl)]).SameAs(decl.Declared())
            && w'.safes[SafeAt(decl)].threshold == decl.threshold < U64_BOUND
  {
    var decl := ctx.cfg.safes[i];
    assert AdmittedSafe(ctx.cfg, decl);
    HandOverMove(ctx, i, w);
    var end := HandOverApplies(ctx.cfg, w, decl);
    w' := w.(safes := w.safes[SafeAt(decl) := end]);
  }

  lemma HandOverSucceeds(ctx: Ctx, w: World, i: nat)
    requires Valid(ctx.cfg) && Hospitable(ctx.cfg, w) && i < |ctx.cfg.safes|
    requires SafeAt(ctx.cfg.safes[i]) in w.safes
    ensures Succeeds(ctx, SafeHandedOver(i), w)
  {
    SafeMoveGoesOn(ctx, w, i);
    if MoveFor(ctx, SafeHandedOver(i), w).Send? {
      var w' := HandOverSends(ctx, w, i);
      HandOverIsConfirmed(ctx, i, w');
    }
  }

  lemma HandOverIsConfirmed(ctx: Ctx, i: nat, w: World)
    requires i < |ctx.cfg.safes| && SafeAt(ctx.cfg.safes[i]) in w.safes
    requires w.safes[SafeAt(ctx.cfg.safes[i])].threshold < U64_BOUND
    requires OwnersOf(w.safes[SafeAt(ctx.cfg.safes[i])]).SameAs(ctx.cfg.safes[i].Declared())
    ensures Confirmed(ctx, SafeHandedOver(i), w)
  {
  }

  lemma SafeMoveGoesOn(ctx: Ctx, w: World, i: nat)
    requires i < |ctx.cfg.safes| && SafeAt(ctx.cfg.safes[i]) in w.safes
    requires w.safes[SafeAt(ctx.cfg.safes[i])].threshold < U64_BOUND
    ensures MoveFor(ctx, SafeHandedOver(i), w).Keep? || MoveFor(ctx, SafeHandedOver(i), w).Send?
  {
  }

  lemma CreationSucceeds(ctx: Ctx, w: World, i: nat)
    requires Valid(ctx.cfg) && i < |ctx.cfg.safes|
    ensures Succeeds(ctx, SafeCreated(i), w)
  {
    assert AdmittedSafe(ctx.cfg, ctx.cfg.safes[i]);
  }

  /** Goals about the substrate, its owner and the release check. */
  lemma ChainGoalSucceeds(ctx: Ctx, g: Goal, w: World)
    requires Hospitable(ctx.cfg, w) && NeedsMet(ctx, g, w) && (g.FactoryOwned? ==> GateOpens(ctx, w))
    requires g.FreshDeployConfirmed? ==> w.factory.Some? || ctx.confirm
    requires g.FreshDeployConfirmed? || g.Create2DeployerInstalled? || g.FactoryInstalled? || g.FactoryOwned?
             || g.OwnershipOffered? || g.OwnershipAccepted? || g.SafeReleaseChecked?
    ensures Succeeds(ctx, g, w)
  {
    if g.FactoryInstalled? { NeedIsMet(ctx, g, w, Create2DeployerInstalled); }
    if g.FactoryOwned? || g.OwnershipOffered? { NeedIsMet(ctx, g, w, FactoryInstalled); }
    if g.OwnershipAccepted? {
      NeedIsMet(ctx, g, w, FactoryInstalled);
      NeedIsMet(ctx, g, w, OwnershipOffered);
    }
  }

  /** Every goal succeeds once those it relies on are met and the proxies it
      reads through are no longer stale. */
  lemma GoalSucceeds(ctx: Ctx, g: Goal, stale: set<Name>, w: World)
    requires Valid(ctx.cfg) && Located(ctx) && Own(ctx, stale, w) && NeedsMet(ctx, g, w) && WellFormed(g)
    requires ReadsThrough(g) !! stale
    requires g.SafeCreated? || g.SafeHandedOver? ==> g.index < |ctx.cfg.safes|
    ensures Succeeds(ctx, g, w)
  {
    if GoesThroughProxy(g) {
      NeededProxy(ctx, g, w, ProxyOf(g));
      assert ProxyOf(g) in ReadsThrough(g);
      SetterSucceeds(ctx, g, stale, w);
    } else {
      match g {
        case Deployed(n) => DeployGoalSucceeds(ctx, stale, w, n);
        case CircuitDeployed(c) =>
          NeedIsMet(ctx, g, w, FactoryInstalled);
          NeedIsMet(ctx, g, w, FactoryOwned);
          CircuitSucceeds(ctx, w, c);
        case Upgraded(n) =>
          NeededProxy(ctx, g, w, n);
          UpgradeSucceeds(ctx, stale, w, n);
        case TrustRootsSet(p) =>
          NeededProxy(ctx, g, w, PlatformVerifier(p));
          NeedIsMet(ctx, g, w, CircuitDeployed(CircuitOf(p)));
          CircuitHolds(ctx, w, CircuitOf(p));
          assert PlatformVerifier(p) in ReadsThrough(g);
          TrustRootsSucceeds(ctx, stale, w, p);
        case Accepting(p) =>
          NeededProxy(ctx, g, w, IdentityRegistry);
          NeedIsMet(ctx, g, w, RegistryWired);
          NeedIsMet(ctx, g, w, Registered(p));
          assert IdentityRegistry in ReadsThrough(g);
          AcceptingSucceeds(ctx, stale, w, p);
        case SafeCreated(i) => CreationSucceeds(ctx, w, i);
        case SafeHandedOver(i) =>
          NeedIsMet(ctx, g, w, SafeCreated(i));
          CreatedIsThere(ctx, w, i);
          HandOverSucceeds(ctx, w, i);
        case _ => ChainGoalSucceeds(ctx, g, w);
      }
    }
  }

  lemma CreatedIsThere(ctx: Ctx, w: World, i: nat)
    requires i < |ctx.cfg.safes| && Met(ctx, SafeCreated(i), w)
    ensures SafeAt(ctx.cfg.safes[i]) in w.safes
  {
  }

  lemma DeployGoalSucceeds(ctx: Ctx, stale: set<Name>, w: World, n: Name)
    requires Valid(ctx.cfg) && Own(ctx, stale, w) && Located(ctx) && IsEntry(n) && NeedsMet(ctx, Deployed(n), w)
    requires ReadsThrough(Deployed(n)) !! stale
    ensures Succeeds(ctx, Deployed(n), w)
  {
    NeedIsMet(ctx, Deployed(n), w, FactoryInstalled);
    NeedIsMet(ctx, Deployed(n), w, FactoryOwned);
    if n == HandleEscrow {
      NeededProxy(ctx, Deployed(n), w, IdentityRegistry);
      assert IdentityRegistry in ReadsThrough(Deployed(n));
    }
    if n.PlatformVerifier? {
      NeedIsMet(ctx, Deployed(n), w, CircuitDeployed(CircuitOf(n.platform)));
      CircuitHolds(ctx, w, CircuitOf(n.platform));
    }
    DeploySucceeds(ctx, stale, w, n);
  }

  // ----- A run keeps the chain its own -----

  lemma InitialEscrow(ctx: Ctx)
    ensures InitialSlots(ctx, HandleEscrow).pointer == At(ctx.cfg, IdentityRegistry)
  {
  }

  lemma DeploysInitial(ctx: Ctx, g: Goal, w: World)
    requires MoveFor(ctx, g, w).Send? && Act(ctx, g, w).DeployProxy?
    ensures Act(ctx, g, w).slots == InitialSlots(ctx, Act(ctx, g, w).name)
  {
  }

  /** The proxies still stale once a goal has acted. */
  function StillStale(stale: set<Name>, g: Goal): set<Name> {
    if g.Upgraded? then stale - {g.name} else stale
  }

  lemma ReleaseServes(cfg: NetworkConfig, n: Name)
    ensures Serves(cfg, n, Release(cfg, n))
  {
  }

  lemma UpgradeTakesEffect(cfg: NetworkConfig, stale: set<Name>, n: Name, w: World, w': World)
    requires OwnProxies(cfg, stale, w) && Apply(cfg, Upgrade(n), w) == Some(w')
    ensures OwnProxies(cfg, stale - {n}, w')
  {
    ReleaseServes(cfg, n);
  }

  lemma TxKeepsProxies(ctx: Ctx, tx: Tx, stale: set<Name>, w: World, w': World)
    requires OwnProxies(ctx.cfg, stale, w) && Benign(ctx, tx) && Apply(ctx.cfg, tx, w) == Some(w')
    requires !tx.Upgrade? && (tx.DeployProxy? ==> tx.slots == InitialSlots(ctx, tx.name))
    ensures OwnProxies(ctx.cfg, stale, w')
  {
    if tx.DeployProxy? { ReleaseServes(ctx.cfg, tx.name); }
    InitialEscrow(ctx);
  }

  lemma ActKeepsProxies(ctx: Ctx, g: Goal, stale: set<Name>, w: World, w': World)
    requires OwnProxies(ctx.cfg, stale, w) && WellFormed(g)
    requires MoveFor(ctx, g, w).Send? && Apply(ctx.cfg, Act(ctx, g, w), w) == Some(w')
    ensures OwnProxies(ctx.cfg, StillStale(stale, g), w')
  {
    OnlyUpgradesUpgrade(ctx, g, w);
    if g.Upgraded? {
      UpgradeTakesEffect(ctx.cfg, stale, g.name, w, w');
    } else {
      ActsAreBenign(ctx, g, w);
      if Act(ctx, g, w).DeployProxy? { DeploysInitial(ctx, g, w); }
      TxKeepsProxies(ctx, Act(ctx, g, w), stale, w, w');
    }
  }

  /** Code and proxies only come, so what nothing needed stays unneeded. */
  lemma NeedsShrink(ctx: Ctx, w: World, w': World)
    requires w.proxies.Keys <= w'.proxies.Keys
    requires forall a :: a in w.code ==> a in w'.code
    ensures NeedsFactory(ctx, w') ==> NeedsFactory(ctx, w)
  {
    assert forall n :: n in w.proxies ==> n in w'.proxies.Keys;
  }

  lemma OwnershipSends(ctx: Ctx, g: Goal, w: World)
    requires g.FactoryOwned? || g.OwnershipOffered? || g.OwnershipAccepted?
    requires MoveFor(ctx, g, w).Send?
    ensures Act(ctx, g, w) ==
            if g.FactoryOwned? then AcceptOwnership(ctx.cfg.deployer)
            else if g.OwnershipOffered? then TransferOwnership(OperationalOwner(ctx.cfg))
            else AcceptOwnership(OperationalOwner(ctx.cfg))
  {
  }

  lemma OwnershipKeepsGate(ctx: Ctx, g: Goal, w: World, w': World)
    requires GateOpens(ctx, w) && (g.OwnershipAccepted? ==> !NeedsFactory(ctx, w))
    requires g.FactoryOwned? || g.OwnershipOffered? || g.OwnershipAccepted?
    requires MoveFor(ctx, g, w).Send? && Apply(ctx.cfg, Act(ctx, g, w), w) == Some(w')
    ensures GateOpens(ctx, w')
  {
    OwnershipSends(ctx, g, w);
    NeedsShrink(ctx, w, w');
  }

  predicate SubstrateTx(tx: Tx) {
    tx.InstallCreate2Deployer? || tx.InstallFactory? || tx.CreateSafe? || tx.ExecSafe?
  }

  lemma OthersSendSubstrateTx(ctx: Ctx, g: Goal, w: World)
    requires !StackGoal(g) && !g.FactoryOwned? && !g.OwnershipOffered? && !g.OwnershipAccepted?
    requires MoveFor(ctx, g, w).Send?
    ensures SubstrateTx(Act(ctx, g, w))
  {
  }

  lemma SubstrateTxKeepsGate(ctx: Ctx, tx: Tx, w: World, w': World)
    requires GateOpens(ctx, w) && SubstrateTx(tx) && Apply(ctx.cfg, tx, w) == Some(w')
    ensures GateOpens(ctx, w')
  {
    NeedsShrink(ctx, w, w');
  }

  lemma ActKeepsGate(ctx: Ctx, g: Goal, w: World, w': World)
    requires GateOpens(ctx, w) && (g.OwnershipAccepted? ==> !NeedsFactory(ctx, w))
    requires MoveFor(ctx, g, w).Send? && Apply(ctx.cfg, Act(ctx, g, w), w) == Some(w')
    ensures GateOpens(ctx, w')
  {
    if StackGoal(g) {
      StackGoalsSendStackTx(ctx, g, w);
      StackTxFrame(ctx.cfg, Act(ctx, g, w), w, w');
      NeedsShrink(ctx, w, w');
    } else if g.FactoryOwned? || g.OwnershipOffered? || g.OwnershipAccepted? {
      OwnershipKeepsGate(ctx, g, w, w');
    } else {
      OthersSendSubstrateTx(ctx, g, w);
      SubstrateTxKeepsGate(ctx, Act(ctx, g, w), w, w');
    }
  }

  ghost predicate Readable(w: World) {
    forall a :: a in w.safes ==> w.safes[a].threshold < U64_BOUND
  }

  lemma HandOverKeepsReadable(ctx: Ctx, i: nat, w: World)
    requires Valid(ctx.cfg) && SafesHealthy(w) && Readable(w) && i < |ctx.cfg.safes|
    requires MoveFor(ctx, SafeHandedOver(i), w).Send?
    ensures Apply(ctx.cfg, Act(ctx, SafeHandedOver(i), w), w).Some?
    ensures Readable(Apply(ctx.cfg, Act(ctx, SafeHandedOver(i), w), w).value)
  {
    var w' := HandOverSends(ctx, w, i);
  }

  lemma CreationKeepsReadable(cfg: NetworkConfig, safe: Address, w: World, w': World)
    requires Readable(w) && Apply(cfg, CreateSafe(safe), w) == Some(w')
    ensures Readable(w')
  {
  }

  lemma ActKeepsReadable(ctx: Ctx, g: Goal, w: World, w': World)
    requires Valid(ctx.cfg) && SafesHealthy(w) && Readable(w)
    requires MoveFor(ctx, g, w).Send? && Apply(ctx.cfg, Act(ctx, g, w), w) == Some(w')
    ensures Readable(w')
  {
    if g.SafeHandedOver? {
      HandOverIndex(ctx, g, w);
      HandOverKeepsReadable(ctx, g.index, w);
    } else if g.SafeCreated? {
      CreationSends(ctx, g, w);
      CreationKeepsReadable(ctx.cfg, Act(ctx, g, w).safe, w, w');
    } else {
      OnlySafeGoalsTouchSafes(ctx, g, w);
      OtherTxKeepsSafes(ctx.cfg, Act(ctx, g, w), w, w');
    }
  }

  lemma CreationSends(ctx: Ctx, g: Goal, w: World)
    requires g.SafeCreated? && MoveFor(ctx, g, w).Send?
    ensures Act(ctx, g, w).CreateSafe?
  {
  }

  lemma TxKeepsSubstrate(cfg: NetworkConfig, tx: Tx, w: World, w': World)
    requires Apply(cfg, tx, w) == Some(w')
    requires (w.create2Deployer || w.acceptsKeyless) && (w.factory.Some? || w.standardCreate2)
    ensures (w'.create2Deployer || w'.acceptsKeyless) && (w'.factory.Some? || w'.standardCreate2)
    ensures w.factory.Some? ==> w'.factory.Some?
  {
  }

  lemma ActKeepsHospitable(ctx: Ctx, g: Goal, w: World, w': World)
    requires Valid(ctx.cfg) && Hospitable(ctx.cfg, w)
    requires MoveFor(ctx, g, w).Send? && Apply(ctx.cfg, Act(ctx, g, w), w) == Some(w')
    ensures Hospitable(ctx.cfg, w')
  {
    var tx := Act(ctx, g, w);
    ApplyKeepsRecords(ctx.cfg, tx, w);
    ApplyKeepsSafesHealthy(ctx.cfg, tx, w);
    TxKeepsSubstrate(ctx.cfg, tx, w, w');
    NameStaysVendored(ctx.cfg, BearerLink, tx, w, w');
    NameStaysVendored(ctx.cfg, OidcGoogle, tx, w, w');
    CodeStays(ctx.cfg, tx, w, w');
    ActKeepsReadable(ctx, g, w, w');
  }

  lemma PerformKeepsOwn(ctx: Ctx, g: Goal, stale: set<Name>, w: World)
    requires Valid(ctx.cfg) && Own(ctx, stale, w) && WellFormed(g) && Perform(ctx, g, w).ok
    requires g.OwnershipAccepted? ==> !NeedsFactory(ctx, w)
    ensures Own(ctx, StillStale(stale, g), Perform(ctx, g, w).world)
  {
    if MoveFor(ctx, g, w).Send? {
      var w' := Perform(ctx, g, w).world;
      PerformSends(ctx, g, w);
      ActKeepsProxies(ctx, g, stale, w, w');
      ActKeepsHospitable(ctx, g, w, w');
      ActKeepsGate(ctx, g, w, w');
      TxKeepsSubstrate(ctx.cfg, Act(ctx, g, w), w, w');
      CodeStays(ctx.cfg, Act(ctx, g, w), w, w');
    } else {
      UpgradesAlwaysSend(ctx, g, w);
    }
  }

  lemma UpgradesAlwaysSend(ctx: Ctx, g: Goal, w: World)
    ensures g.Upgraded? ==> MoveFor(ctx, g, w).Send?
  {
  }

  // ----- The goals of a run, each after what it relies on -----

  lemma FollowsOne(met: set<Goal>, g: Goal)
    requires Needs(g) <= met
    ensures Follows(met, [g]) && Elements([g]) == {g}
  {
    assert [g][1..] == [];
  }

  lemma {:induction false} UpgradesFollow(met: set<Goal>, u: seq<Name>, n: Name)
    requires Deployed(n) in met
    ensures Follows(met, UpgradesOf(u, n))
    decreases |u|
  {
    if u != [] {
      UpgradesFollow(met + {Upgraded(n)}, u[1..], n);
      UpgradesFollow(met, u[1..], n);
      if u[0] == n {
        assert UpgradesOf(u, n)[1..] == UpgradesOf(u[1..], n);
      } else {
        assert UpgradesOf(u, n) == UpgradesOf(u[1..], n);
      }
    }
  }

  /** Deploys, the upgrades of the last of them, and goals on top of those. */
  lemma SectionFollows(met: set<Goal>, u: seq<Name>, first: seq<Goal>, n: Name, last: seq<Goal>)
    requires Follows(met, first) && Deployed(n) in met + Elements(first)
    requires Follows(met + Elements(first), last)
    ensures Follows(met, first + UpgradesOf(u, n) + last)
  {
    UpgradesFollow(met + Elements(first), u, n);
    FollowsAppend(met, first, UpgradesOf(u, n));
    ElementsAppend(first, UpgradesOf(u, n));
    FollowsMore(met + Elements(first), met + Elements(first + UpgradesOf(u, n)), last);
    FollowsAppend(met, first + UpgradesOf(u, n), last);
  }

  const GATE: set<Goal> := {FactoryInstalled, FactoryOwned}

  lemma EntryFollows(met: set<Goal>, u: seq<Name>, n: Name, last: seq<Goal>)
    requires GATE <= met && Needs(Deployed(n)) <= met
    requires Follows({Deployed(n)}, last)
    ensures Follows(met, [Deployed(n)] + UpgradesOf(u, n) + last)
  {
    FollowsOne(met, Deployed(n));
    FollowsMore({Deployed(n)}, met + Elements([Deployed(n)]), last);
    SectionFollows(met, u, [Deployed(n)], n, last);
  }

  lemma NotaryFollows(met: set<Goal>, u: seq<Name>)
    requires GATE <= met
    ensures Follows(met, NotarySection(u))
  {
    var last := [NotaryTrusted, FeeCharged, RecipientSet];
    assert last[1..] == [FeeCharged, RecipientSet] && last[1..][1..] == [RecipientSet];
    FollowsOne({Deployed(NotaryService), NotaryTrusted, FeeCharged}, RecipientSet);
    assert {Deployed(NotaryService)} + {NotaryTrusted} + {FeeCharged}
           == {Deployed(NotaryService), NotaryTrusted, FeeCharged};
    EntryFollows(met, u, NotaryService, last);
  }

  lemma SimpleFollows(met: set<Goal>, u: seq<Name>, n: Name, g: Goal)
    requires GATE <= met && Needs(Deployed(n)) <= met && Needs(g) == {Deployed(n)}
    ensures Follows(met, [Deployed(n)] + UpgradesOf(u, n) + [g])
  {
    FollowsOne({Deployed(n)}, g);
    EntryFollows(met, u, n, [g]);
  }

  lemma ProofVerifierFollows(met: set<Goal>, u: seq<Name>)
    requires GATE <= met
    ensures Follows(met, ProofVerifierSection(u))
  {
    EntryFollows(met, u, CeremonyProofVerifier, []);
    assert ProofVerifierSection(u) + [] == ProofVerifierSection(u);
  }

  lemma TailFollows(met: set<Goal>, p: Platform)
    requires {Deployed(PlatformVerifier(p)), CircuitDeployed(CircuitOf(p)), Deployed(CeremonyProofVerifier)} <= met
    ensures Follows(met, PlatformTail(p))
  {
    FollowsOne(met, TrustRootsSet(p));
    if p.Google? {
      FollowsOne(met + {TrustRootsSet(p)} + {GoogleRootsRead}, Registered(p));
      assert PlatformTail(p)[1..] == [GoogleRootsRead, Registered(p)];
      assert [GoogleRootsRead, Registered(p)][1..] == [Registered(p)];
    } else {
      FollowsOne(met + {TrustRootsSet(p)}, Registered(p));
      assert PlatformTail(p)[1..] == [Registered(p)];
    }
  }

  lemma PlatformFollows(met: set<Goal>, u: seq<Name>, p: Platform)
    requires GATE <= met && Deployed(CeremonyProofVerifier) in met
    ensures Follows(met, PlatformSection(u, p))
  {
    var n := PlatformVerifier(p);
    var first := [CircuitDeployed(CircuitOf(p)), Deployed(n)];
    assert first[1..] == [Deployed(n)];
    FollowsOne(met + {first[0]}, Deployed(n));
    assert Elements(first) == {first[0], Deployed(n)};
    TailFollows(met + Elements(first), p);
    PlatformParts(u, p);
    SectionFollows(met, u, first, n, PlatformTail(p));
  }

  /** A section behind goals it may rely on. */
  lemma After(met: set<Goal>, early: seq<Goal>, base: set<Goal>, section: seq<Goal>)
    requires Follows(met, early) && base <= met + Elements(early) && Follows(base, section)
    ensures Follows(met, early + section)
    ensures Elements(early + section) == Elements(early) + Elements(section)
  {
    FollowsMore(base, met + Elements(early), section);
    FollowsAppend(met, early, section);
    ElementsAppend(early, section);
  }

  lemma SectionHas(u: seq<Name>, n: Name, g: Goal)
    ensures Deployed(n) in Elements([Deployed(n)] + UpgradesOf(u, n))
    ensures {Deployed(n), g} <= Elements([Deployed(n)] + UpgradesOf(u, n) + [g])
  {
    assert ([Deployed(n)] + UpgradesOf(u, n))[0] == Deployed(n);
    ElementsAppend([Deployed(n)] + UpgradesOf(u, n), [g]);
    assert g in Elements([g]);
  }

  lemma FirstFollows(u: seq<Name>)
    ensures var first := NotarySection(u) + ProofVerifierSection(u);
            Follows(GATE, first) && Deployed(CeremonyProofVerifier) in Elements(first)
  {
    NotaryFollows(GATE, u);
    ProofVerifierFollows(GATE, u);
    After(GATE, NotarySection(u), GATE, ProofVerifierSection(u));
    SectionHas(u, CeremonyProofVerifier, RegistryWired);
  }

  lemma EarlyFollows(u: seq<Name>)
    ensures var early := NotarySection(u) + ProofVerifierSection(u) + RegistrySection(u);
            && Follows(GATE, early)
            && {Deployed(CeremonyProofVerifier), Deployed(IdentityRegistry), RegistryWired} <= Elements(early)
  {
    FirstFollows(u);
    SimpleFollows(GATE, u, IdentityRegistry, RegistryWired);
    After(GATE, NotarySection(u) + ProofVerifierSection(u), GATE, RegistrySection(u));
    SectionHas(u, IdentityRegistry, RegistryWired);
  }

  lemma CoreFollows(u: seq<Name>, early: seq<Goal>)
    requires Follows(GATE, early)
    requires {Deployed(CeremonyProofVerifier), Deployed(IdentityRegistry), RegistryWired} <= Elements(early)
    ensures var core := early + EscrowSection(u) + RootsSection(u);
            && Follows(GATE, core)
            && {Deployed(CeremonyProofVerifier), Deployed(IdentityRegistry), RegistryWired} <= Elements(core)
  {
    EscrowFollows(u, early);
    RootsFollow(u, early + EscrowSection(u));
    ElementsAppend(early + EscrowSection(u), RootsSection(u));
    ElementsAppend(early, EscrowSection(u));
  }

  lemma EscrowFollows(u: seq<Name>, early: seq<Goal>)
    requires Follows(GATE, early) && Deployed(IdentityRegistry) in Elements(early)
    ensures Follows(GATE, early + EscrowSection(u))
  {
    SimpleFollows(GATE + {Deployed(IdentityRegistry)}, u, HandleEscrow, EscrowBound);
    After(GATE, early, GATE + {Deployed(IdentityRegistry)}, EscrowSection(u));
  }

  lemma RootsFollow(u: seq<Name>, early: seq<Goal>)
    requires Follows(GATE, early)
    ensures Follows(GATE, early + RootsSection(u))
  {
    SimpleFollows(GATE, u, GoogleJwtRoots, RootsWired);
    After(GATE, early, GATE, RootsSection(u));
  }

  lemma PlatformHas(u: seq<Name>, p: Platform)
    ensures Registered(p) in Elements(PlatformSection(u, p))
  {
    PlatformParts(u, p);
    ElementsAppend(
      [CircuitDeployed(CircuitOf(p)), Deployed(PlatformVerifier(p))] + UpgradesOf(u, PlatformVerifier(p)), PlatformTail(p));
    assert PlatformTail(p)[|PlatformTail(p)| - 1] == Registered(p);
  }

  lemma PlatformAfterThat(u: seq<Name>, p: Platform, early: seq<Goal>)
    requires Follows(GATE, early) && Deployed(CeremonyProofVerifier) in Elements(early)
    ensures Follows(GATE, early + PlatformSection(u, p))
    ensures Elements(early) + {Registered(p)} <= Elements(early + PlatformSection(u, p))
  {
    PlatformFollows(GATE + {Deployed(CeremonyProofVerifier)}, u, p);
    After(GATE, early, GATE + {Deployed(CeremonyProofVerifier)}, PlatformSection(u, p));
    PlatformHas(u, p);
  }

  lemma AcceptingFollows(met: set<Goal>)
    requires {Deployed(CeremonyProofVerifier), Deployed(IdentityRegistry), RegistryWired,
              Registered(X), Registered(GitHub), Registered(Google)} <= met
    ensures Follows(met, ACCEPTING)
  {
    assert ACCEPTING[1..] == [Accepting(GitHub), Accepting(Google)] && ACCEPTING[1..][1..] == [Accepting(Google)];
    FollowsOne(met + {Accepting(X)} + {Accepting(GitHub)}, Accepting(Google));
  }

  lemma StackFollows(u: seq<Name>)
    ensures Follows(GATE, StackGoals(u))
  {
    EarlyFollows(u);
    var early := NotarySection(u) + ProofVerifierSection(u) + RegistrySection(u);
    CoreFollows(u, early);
    var core := early + EscrowSection(u) + RootsSection(u);
    PlatformAfterThat(u, X, core);
    PlatformAfterThat(u, GitHub, core + PlatformSection(u, X));
    var two := core + PlatformSection(u, X) + PlatformSection(u, GitHub);
    PlatformAfterThat(u, Google, two);
    var three := two + PlatformSection(u, Google);
    AcceptingFollows(Elements(three));
    After(GATE, three, Elements(three), ACCEPTING);
  }

  lemma {:induction false} SafesFollow(met: set<Goal>, cfg: NetworkConfig, i: nat)
    requires i <= |cfg.safes|
    ensures Follows(met, SafeGoals(cfg, i))
    decreases |cfg.safes| - i
  {
    if i < |cfg.safes| {
      SafesFollow(met + {SafeCreated(i)} + {SafeHandedOver(i)}, cfg, i + 1);
      var pair := [SafeCreated(i), SafeHandedOver(i)];
      assert (pair + SafeGoals(cfg, i + 1))[1..] == [SafeHandedOver(i)] + SafeGoals(cfg, i + 1);
      assert ([SafeHandedOver(i)] + SafeGoals(cfg, i + 1))[1..] == SafeGoals(cfg, i + 1);
    }
  }

  lemma BackFollows(met: set<Goal>, cfg: NetworkConfig)
    requires FactoryInstalled in met
    ensures Follows(met, BackGoals(cfg))
  {
    var first := OWNERSHIP + [SafeReleaseChecked];
    OwnershipFollows(met);
    SafesFollow(met + Elements(first), cfg, 0);
    FollowsAppend(met, first, SafeGoals(cfg, 0));
  }

  lemma OwnershipFollows(met: set<Goal>)
    requires FactoryInstalled in met
    ensures Follows(met, OWNERSHIP + [SafeReleaseChecked])
  {
    var first := OWNERSHIP + [SafeReleaseChecked];
    assert first[1..] == [OwnershipAccepted, SafeReleaseChecked] && first[1..][1..] == [SafeReleaseChecked];
    FollowsOne(met + {OwnershipOffered} + {OwnershipAccepted}, SafeReleaseChecked);
  }

  lemma GateFollows()
    ensures var gate := INSTALL + [FactoryOwned]; Follows({}, gate) && GATE <= Elements(gate)
  {
    var gate := INSTALL + [FactoryOwned];
    assert gate[1..] == [Create2DeployerInstalled, FactoryInstalled, FactoryOwned];
    assert gate[1..][1..] == [FactoryInstalled, FactoryOwned] && gate[1..][1..][1..] == [FactoryOwned];
    FollowsOne({} + {FreshDeployConfirmed} + {Create2DeployerInstalled} + {FactoryInstalled}, FactoryOwned);
    assert gate[2] == FactoryInstalled && gate[3] == FactoryOwned;
  }

  lemma GoalsFollow(cfg: NetworkConfig, u: seq<Name>)
    ensures Follows({}, Goals(cfg, u))
  {
    GateFollows();
    StackFollows(u);
    After({}, INSTALL + [FactoryOwned], GATE, StackGoals(u));
    BackFollows(GATE, cfg);
    After({}, FrontGoals(u), GATE, BackGoals(cfg));
  }

  // ----- The run -----

  /** Where the factory is about to be handed on, nothing needs it. */
  lemma HandOnNeedsNothingMore(cfg: NetworkConfig, opts: Options, w: World, i: nat, at: World)
    requires Valid(cfg) && RecordsHold(cfg, w) && Reaches(cfg, opts, w, i, at)
    requires Goals(cfg, opts.upgrades)[i].OwnershipAccepted?
    ensures !NeedsFactory(CtxOf(cfg, opts.confirmFreshDeploy, w), at)
  {
    var ctx, goals := CtxOf(cfg, opts.confirmFreshDeploy, w), Goals(cfg, opts.upgrades);
    forall m | NeededBy(m) ensures Met(ctx, m, at) {
      NeededBeforeHandOn(cfg, opts.upgrades, i, m);
      PassedIsMet(cfg, opts, w, i, at, m);
    }
    AllMetNeedsNothing(ctx, at);
  }

  lemma NeededBeforeHandOn(cfg: NetworkConfig, u: seq<Name>, i: nat, m: Goal)
    requires i < |Goals(cfg, u)| && Goals(cfg, u)[i].OwnershipAccepted? && NeededBy(m)
    ensures m in Goals(cfg, u)[..i]
  {
    var front, back := FrontGoals(u), BackGoals(cfg);
    FrontShape(u);
    MemberOfEither(front, back, i);
    NeededIsInFront(m, u);
    MemberOfPrefix(front, back, i, m);
  }

  lemma FrontMember(u: seq<Name>, g: Goal)
    requires g in FrontGoals(u)
    ensures g in INSTALL || g == FactoryOwned || g in StackGoals(u)
  {
    var gate, stack := INSTALL + [FactoryOwned], StackGoals(u);
    assert g in gate || g in stack;
  }

  lemma BackMember(cfg: NetworkConfig, g: Goal)
    requires g in BackGoals(cfg)
    ensures g in OWNERSHIP || g == SafeReleaseChecked || g in SafeGoals(cfg, 0)
  {
    var gate, safes := OWNERSHIP + [SafeReleaseChecked], SafeGoals(cfg, 0);
    assert g in gate || g in safes;
  }

  lemma GoalIndexed(cfg: NetworkConfig, u: seq<Name>, g: Goal)
    requires g in Goals(cfg, u)
    ensures WellFormed(g) && (g.SafeCreated? || g.SafeHandedOver? ==> g.index < |cfg.safes|)
    ensures g.Upgraded? ==> g.name in u
  {
    var front, back := FrontGoals(u), BackGoals(cfg);
    assert g in front || g in back;
    if g in front {
      FrontMember(u, g);
      StackShape(u);
      assert g in StackGoals(u) ==> Shaped(u, g);
    } else {
      BackMember(cfg, g);
      SafeGoalsShape(cfg, 0);
    }
  }

  lemma NoGoalNeedsAnUpgrade(g: Goal, q: Goal)
    requires q in Needs(g)
    ensures !q.Upgraded?
  {
  }

  lemma NeedIsPassed(cfg: NetworkConfig, u: seq<Name>, goals: seq<Goal>, i: nat, q: Goal)
    requires goals == Goals(cfg, u) && i < |goals| && q in Needs(goals[i])
    ensures q in goals[..i] && !q.Upgraded?
  {
    GoalsFollow(cfg, u);
    FollowsAt({}, goals, i, q);
    NoGoalNeedsAnUpgrade(goals[i], q);
  }

  lemma NeedsAreMet(cfg: NetworkConfig, opts: Options, w: World, i: nat, at: World)
    requires Valid(cfg) && RecordsHold(cfg, w) && Reaches(cfg, opts, w, i, at)
    ensures NeedsMet(CtxOf(cfg, opts.confirmFreshDeploy, w), Goals(cfg, opts.upgrades)[i], at)
  {
    var g := Goals(cfg, opts.upgrades)[i];
    forall q | q in Needs(g) ensures Met(CtxOf(cfg, opts.confirmFreshDeploy, w), q, at) {
      NeedIsPassed(cfg, opts.upgrades, Goals(cfg, opts.upgrades), i, q);
      PassedIsMet(cfg, opts, w, i, at, q);
    }
  }

  // ----- Stale proxies are upgraded before they are read -----

  /** The requested proxies no goal of `done` has upgraded. */
  function Stale(u: seq<Name>, done: seq<Goal>): set<Name> {
    set n | n in u && Upgraded(n) !in done
  }

  lemma StaleShrinks(u: seq<Name>, done: seq<Goal>, g: Goal)
    ensures Stale(u, done + [g]) == StillStale(Stale(u, done), g)
  {
    forall n | n in u ensures Upgraded(n) in done + [g] <==> Upgraded(n) in done || g == Upgraded(n) {
      assert Upgraded(n) in [g] <==> g == Upgraded(n);
    }
  }

  lemma {:induction false} NamedIsAGoal(goals: seq<Goal>, n: Name)
    requires n in UpgradeNames(goals)
    ensures Upgraded(n) in goals
  {
    if !(goals[0].Upgraded? && goals[0].name == n) { NamedIsAGoal(goals[1..], n); }
  }

  lemma RequestIsAGoal(cfg: NetworkConfig, u: seq<Name>, n: Name)
    requires (forall m :: m in u ==> IsEntry(m)) && n in u
    ensures Upgraded(n) in Goals(cfg, u)
  {
    FrontUpgrades(u);
    assert n in multiset(UpgradeNames(FrontGoals(u)));
    NamedIsAGoal(FrontGoals(u), n);
  }

  lemma ReadAfterRequest(cfg: NetworkConfig, u: seq<Name>, goals: seq<Goal>, i: nat, n: Name)
    requires (forall m :: m in u ==> IsEntry(m)) && n in u
    requires goals == Goals(cfg, u) && i < |goals| && n in ReadsThrough(goals[i])
    ensures Upgraded(n) in goals[..i]
  {
    RequestIsAGoal(cfg, u, n);
    var j :| 0 <= j < |goals| && goals[j] == Upgraded(n);
    UpgradeBeforeRead(cfg, u, j);
    BeforeTheRead(goals, i, j, n);
  }

  lemma BeforeTheRead(goals: seq<Goal>, i: nat, j: nat, n: Name)
    requires i < |goals| && n in ReadsThrough(goals[i])
    requires j < |goals| && goals[j] == Upgraded(n) && forall k :: 0 <= k < j ==> n !in ReadsThrough(goals[k])
    ensures Upgraded(n) in goals[..i]
  {
    assert goals[..i][j] == goals[j];
  }

  lemma ReadsNothingStale(cfg: NetworkConfig, u: seq<Name>, goals: seq<Goal>, i: nat)
    requires forall m :: m in u ==> IsEntry(m)
    requires goals == Goals(cfg, u) && i < |goals|
    ensures ReadsThrough(goals[i]) !! Stale(u, goals[..i])
  {
    forall n | n in ReadsThrough(goals[i]) && n in u ensures Upgraded(n) in goals[..i] {
      ReadAfterRequest(cfg, u, goals, i, n);
    }
  }

  // ----- The run gets through -----

  lemma ThisOneSucceeds(cfg: NetworkConfig, opts: Options, w: World, i: nat, at: World)
    requires Valid(cfg) && RecordsHold(cfg, w) && Reaches(cfg, opts, w, i, at)
    requires forall n :: n in opts.upgrades ==> IsEntry(n)
    requires Own(CtxOf(cfg, opts.confirmFreshDeploy, w), Stale(opts.upgrades, Goals(cfg, opts.upgrades)[..i]), at)
    ensures WellFormed(Goals(cfg, opts.upgrades)[i])
    ensures Succeeds(CtxOf(cfg, opts.confirmFreshDeploy, w), Goals(cfg, opts.upgrades)[i], at)
  {
    var ctx := CtxOf(cfg, opts.confirmFreshDeploy, w);
    var goals := Goals(cfg, opts.upgrades);
    GoalIndexed(cfg, opts.upgrades, goals[i]);
    NeedsAreMet(cfg, opts, w, i, at);
    ReadsNothingStale(cfg, opts.upgrades, goals, i);
    GoalSucceeds(ctx, goals[i], Stale(opts.upgrades, goals[..i]), at);
  }

  /** One more goal of a run that is getting through. */
  lemma OneMore(ctx: Ctx, u: seq<Name>, goals: seq<Goal>, w: World, i: nat, at: World)
    requires Valid(ctx.cfg) && i < |goals| && Run(ctx, goals[..i], w).ok && Run(ctx, goals[..i], w).world == at
    requires Own(ctx, Stale(u, goals[..i]), at) && WellFormed(goals[i]) && Succeeds(ctx, goals[i], at)
    requires goals[i].OwnershipAccepted? ==> !NeedsFactory(ctx, at)
    ensures var next := Run(ctx, goals[..i + 1], w); next.ok && Own(ctx, Stale(u, goals[..i + 1]), next.world)
  {
    assert goals[..i + 1] == goals[..i] + [goals[i]];
    SucceedsMeans(ctx, goals[i], at);
    StaleShrinks(u, goals[..i], goals[i]);
    PerformKeepsOwn(ctx, goals[i], Stale(u, goals[..i]), at);
    RunSnoc(ctx, goals[..i], goals[i], w);
  }

  /** Chains a run succeeds on: hospitable, openable, and stale at most where
      the run is asked to upgrade. */
  ghost predicate Renewable(cfg: NetworkConfig, opts: Options, w: World) {
    && OwnProxies(cfg, Elements(opts.upgrades), w) && Hospitable(cfg, w)
    && (w.factory.Some? || opts.confirmFreshDeploy)
    && GateOpens(CtxOf(cfg, opts.confirmFreshDeploy, w), w)
  }

  lemma NothingDoneYet(u: seq<Name>)
    ensures Stale(u, []) == Elements(u)
  {
  }

  /** How far a run has got: through its first `i` goals, on its own chain. */
  ghost predicate Through(cfg: NetworkConfig, opts: Options, w: World, i: nat) {
    i <= |Goals(cfg, opts.upgrades)| &&
    var ctx, done := CtxOf(cfg, opts.confirmFreshDeploy, w), Goals(cfg, opts.upgrades)[..i];
    Run(ctx, done, w).ok && Own(ctx, Stale(opts.upgrades, done), Run(ctx, done, w).world)
  }

  lemma StartsThrough(cfg: NetworkConfig, opts: Options, w: World)
    requires Renewable(cfg, opts, w)
    ensures Through(cfg, opts, w, 0)
  {
    assert Goals(cfg, opts.upgrades)[..0] == [];
    NothingDoneYet(opts.upgrades);
  }

  lemma GoesFurther(cfg: NetworkConfig, opts: Options, w: World, i: nat)
    requires Valid(cfg) && RecordsHold(cfg, w) && (forall n :: n in opts.upgrades ==> IsEntry(n))
    requires Through(cfg, opts, w, i) && i < |Goals(cfg, opts.upgrades)|
    ensures Through(cfg, opts, w, i + 1)
  {
    var ctx := CtxOf(cfg, opts.confirmFreshDeploy, w);
    var at := Run(ctx, Goals(cfg, opts.upgrades)[..i], w).world;
    ThisOneSucceeds(cfg, opts, w, i, at);
    if Goals(cfg, opts.upgrades)[i].OwnershipAccepted? { HandOnNeedsNothingMore(cfg, opts, w, i, at); }
    OneMore(ctx, opts.upgrades, Goals(cfg, opts.upgrades), w, i, at);
  }

  lemma {:induction false} GetsThrough(cfg: NetworkConfig, opts: Options, w: World, from: nat, i: nat)
    requires Valid(cfg) && RecordsHold(cfg, w) && (forall n :: n in opts.upgrades ==> IsEntry(n))
    requires Through(cfg, opts, w, from) && from <= i <= |Goals(cfg, opts.upgrades)|
    ensures Through(cfg, opts, w, i)
    decreases i - from
  {
    if from < i {
      GoesFurther(cfg, opts, w, from);
      GetsThrough(cfg, opts, w, from + 1, i);
    }
  }

  lemma ReleaseStays(cfg: NetworkConfig, tx: Tx, w: World, w': World, n: Name)
    requires n in w.proxies && w.proxies[n].impl == Release(cfg, n) && Apply(cfg, tx, w) == Some(w')
    ensures n in w'.proxies && w'.proxies[n].impl == Release(cfg, n)
  {
  }

  lemma UpgradeInstalls(cfg: NetworkConfig, w: World, w': World, n: Name)
    requires Apply(cfg, Upgrade(n), w) == Some(w')
    ensures n in w'.proxies && w'.proxies[n].impl == Release(cfg, n)
  {
  }

  /** Once upgraded, a proxy stays on the embedded implementation. */
  lemma {:induction false} UpgradedEndsOnRelease(ctx: Ctx, goals: seq<Goal>, w: World, n: Name)
    requires Run(ctx, goals, w).ok
    requires Upgraded(n) in goals || (n in w.proxies && w.proxies[n].impl == Release(ctx.cfg, n))
    ensures var end := Run(ctx, goals, w).world; n in end.proxies && end.proxies[n].impl == Release(ctx.cfg, n)
    decreases |goals|
  {
    if goals != [] {
      var g, w' := goals[0], Perform(ctx, goals[0], w).world;
      UpgradesAlwaysSend(ctx, g, w);
      if MoveFor(ctx, g, w).Send? {
        PerformSends(ctx, g, w);
        OnlyUpgradesUpgrade(ctx, g, w);
        if g == Upgraded(n) {
          UpgradeInstalls(ctx.cfg, w, w', n);
        } else if n in w.proxies && w.proxies[n].impl == Release(ctx.cfg, n) {
          ReleaseStays(ctx.cfg, Act(ctx, g, w), w, w', n);
        }
      }
      UpgradedEndsOnRelease(ctx, goals[1..], w', n);
    }
  }

  /** A run succeeds and leaves the chain as declared on every chain that can
      host the stack and holds any part of it under the deployer's keys, where
      each proxy serves the file or is upgraded by the run. Every platform ends
      on the vendored verifier, every proxy serves the file, and a requested
      one runs the embedded implementation. */
  lemma RunSucceeds(cfg: NetworkConfig, opts: Options, w: World)
    requires Valid(cfg) && Renewable(cfg, opts, w) && (forall n :: n in opts.upgrades ==> IsEntry(n))
    ensures var run := RunAll(cfg, cfg.deployer, opts, w);
            && run.ok && Converged(cfg, run.world)
            && (forall p :: UsesVendored(cfg, run.world, p))
            && OwnProxies(cfg, {}, run.world)
            && forall n :: n in opts.upgrades ==> n in run.world.proxies && run.world.proxies[n].impl == Release(cfg, n)
  {
    var goals := Goals(cfg, opts.upgrades);
    StartsThrough(cfg, opts, w);
    GetsThrough(cfg, opts, w, 0, |goals|);
    assert goals[..|goals|] == goals;
    FinishedIsConverged(cfg, opts, w);
    FinishedIsVendored(cfg, opts, w);
    forall n | n in opts.upgrades
      ensures Upgraded(n) in goals
      ensures var end := RunAll(cfg, cfg.deployer, opts, w).world;
              n in end.proxies && end.proxies[n].impl == Release(cfg, n)
    {
      RequestIsAGoal(cfg, opts.upgrades, n);
      UpgradedEndsOnRelease(CtxOf(cfg, opts.confirmFreshDeploy, w), goals, w, n);
    }
    assert Stale(opts.upgrades, goals) == {};
  }

  // ----- The same command again, after a cut -----

  /** Wherever a run that finishes is cut, it has done a number of its goals. */
  lemma {:induction false} CutIsReached(ctx: Ctx, goals: seq<Goal>, w: World, k: nat) returns (i: nat)
    requires Run(ctx, goals, w).ok
    ensures i <= |goals| && Run(ctx, goals[..i], w).world == Interrupted(ctx, goals, w, k)
    decreases |goals|
  {
    i := 0;
    NothingRun(ctx, goals, w);
    if goals != [] {
      CutAtFirst(ctx, goals, w, k);
      if k >= Sent(ctx, goals[0], w) {
        var done := CutIsReached(ctx, goals[1..], Perform(ctx, goals[0], w).world, k - Sent(ctx, goals[0], w));
        DoneWithFirst(ctx, goals, w, done);
        i := done + 1;
      }
    }
  }

  lemma NothingRun(ctx: Ctx, goals: seq<Goal>, w: World)
    ensures Run(ctx, goals[..0], w) == Idle(w)
  {
  }

  /** How many transactions a goal sends. */
  function Sent(ctx: Ctx, g: Goal, w: World): nat {
    if MoveFor(ctx, g, w).Send? then |MoveFor(ctx, g, w).txs| else 0
  }

  lemma CutAtFirst(ctx: Ctx, goals: seq<Goal>, w: World, k: nat)
    requires goals != [] && Perform(ctx, goals[0], w).ok
    ensures var sent := Sent(ctx, goals[0], w);
            Interrupted(ctx, goals, w, k)
            == if k < sent then w else Interrupted(ctx, goals[1..], Perform(ctx, goals[0], w).world, k - sent)
  {
    if MoveFor(ctx, goals[0], w).Send? { InterruptedAfterSend(ctx, goals, w, k); }
  }

  lemma DoneWithFirst(ctx: Ctx, goals: seq<Goal>, w: World, done: nat)
    requires goals != [] && done < |goals| && Perform(ctx, goals[0], w).ok
    ensures Run(ctx, goals[..done + 1], w).world == Run(ctx, goals[1..][..done], Perform(ctx, goals[0], w).world).world
  {
    assert goals[..done + 1][1..] == goals[1..][..done];
  }

  lemma SetterKeepsVendored(ctx: Ctx, p: Platform, n: Name, change: Change, w: World, w': World)
    requires UsesVendored(ctx.cfg, w, p) && Apply(ctx.cfg, SetOn(n, change), w) == Some(w')
    requires change.VerifyWith? && n == PlatformVerifier(p) ==>
      CodeAt(w, change.honk) == Some(Vendored(ctx.cfg, CircuitOf(p)))
    ensures UsesVendored(ctx.cfg, w', p)
  {
  }

  lemma TxKeepsVendored(cfg: NetworkConfig, p: Platform, tx: Tx, w: World, w': World)
    requires UsesVendored(cfg, w, p) && !tx.SetOn? && Apply(cfg, tx, w) == Some(w')
    ensures UsesVendored(cfg, w', p)
  {
  }

  lemma RotatesOntoVendored(ctx: Ctx, g: Goal, w: World)
    requires MoveFor(ctx, g, w).Send? && Act(ctx, g, w).SetOn? && Act(ctx, g, w).change.VerifyWith?
    ensures Act(ctx, g, w).name.PlatformVerifier?
    ensures CodeAt(w, Act(ctx, g, w).change.honk) == Some(Vendored(ctx.cfg, CircuitOf(Act(ctx, g, w).name.platform)))
  {
  }

  /** A platform on the vendored verifier stays on it, upgrades and all. */
  lemma ActKeepsVendored(ctx: Ctx, p: Platform, g: Goal, w: World, w': World)
    requires UsesVendored(ctx.cfg, w, p) && MoveFor(ctx, g, w).Send?
    requires Apply(ctx.cfg, Act(ctx, g, w), w) == Some(w')
    ensures UsesVendored(ctx.cfg, w', p)
  {
    var tx := Act(ctx, g, w);
    if tx.SetOn? {
      if tx.change.VerifyWith? { RotatesOntoVendored(ctx, g, w); }
      SetterKeepsVendored(ctx, p, tx.name, tx.change, w, w');
    } else {
      TxKeepsVendored(ctx.cfg, p, tx, w, w');
    }
  }

  lemma {:induction false} RunKeepsVendored(ctx: Ctx, p: Platform, goals: seq<Goal>, w: World)
    requires UsesVendored(ctx.cfg, w, p)
    ensures UsesVendored(ctx.cfg, Run(ctx, goals, w).world, p)
    decreases |goals|
  {
    if goals != [] {
      var first := Perform(ctx, goals[0], w);
      if MoveFor(ctx, goals[0], w).Send? {
        PerformedWorld(ctx, goals[0], w);
        if Apply(ctx.cfg, Act(ctx, goals[0], w), w).Some? { ActKeepsVendored(ctx, p, goals[0], w, first.world); }
      }
      if first.ok { RunKeepsVendored(ctx, p, goals[1..], first.world); }
    }
  }

  lemma RelocatedMissing(cfg: NetworkConfig, confirm: bool, w: World, cut: World, c: Circuit)
    requires forall p :: UsesVendored(cfg, w, p) ==> UsesVendored(cfg, cut, p)
    requires CircuitMissing(CtxOf(cfg, confirm, cut), cut, c)
    ensures CircuitMissing(CtxOf(cfg, confirm, w), cut, c)
  {
  }

  /** The gate found open with the old sites is open with the new ones. */
  lemma GateOpensAgain(cfg: NetworkConfig, confirm: bool, w: World, cut: World)
    requires GateOpens(CtxOf(cfg, confirm, w), cut)
    requires forall p :: UsesVendored(cfg, w, p) ==> UsesVendored(cfg, cut, p)
    ensures GateOpens(CtxOf(cfg, confirm, cut), cut)
  {
    forall c | CircuitMissing(CtxOf(cfg, confirm, cut), cut, c) ensures CircuitMissing(CtxOf(cfg, confirm, w), cut, c) {
      RelocatedMissing(cfg, confirm, w, cut, c);
    }
  }

  lemma StaleIsRequested(cfg: NetworkConfig, u: seq<Name>, done: seq<Goal>, w: World)
    requires OwnProxies(cfg, Stale(u, done), w)
    ensures OwnProxies(cfg, Elements(u), w)
  {
  }

  /** Wherever a run that upgrades is cut, the chain is one the same command
      succeeds on. */
  lemma CutIsRenewable(cfg: NetworkConfig, opts: Options, w: World, k: nat)
    requires Valid(cfg) && Renewable(cfg, opts, w) && (forall n :: n in opts.upgrades ==> IsEntry(n))
    ensures Renewable(cfg, opts, Interrupted(CtxOf(cfg, opts.confirmFreshDeploy, w), Goals(cfg, opts.upgrades), w, k))
  {
    var ctx, goals := CtxOf(cfg, opts.confirmFreshDeploy, w), Goals(cfg, opts.upgrades);
    RunSucceeds(cfg, opts, w);
    var i := CutIsReached(ctx, goals, w, k);
    var cut := Run(ctx, goals[..i], w).world;
    StartsThrough(cfg, opts, w);
    GetsThrough(cfg, opts, w, 0, i);
    StaleIsRequested(cfg, opts.upgrades, goals[..i], cut);
    forall p | UsesVendored(cfg, w, p) ensures UsesVendored(cfg, cut, p) { RunKeepsVendored(ctx, p, goals[..i], w); }
    GateOpensAgain(cfg, opts.confirmFreshDeploy, w, cut);
  }

  /** A run with upgrades, cut after any of its transactions and started again
      with the same command, succeeds and leaves the chain as declared. */
  lemma UpgradeRunRestarts(cfg: NetworkConfig, opts: Options, w: World, k: nat)
    requires Valid(cfg) && Renewable(cfg, opts, w) && (forall n :: n in opts.upgrades ==> IsEntry(n))
    requires k <= |RunAll(cfg, cfg.deployer, opts, w).trace|
    ensures var cut := ApplyAll(cfg, RunAll(cfg, cfg.deployer, opts, w).trace[..k], w);
            && cut.Some? && Renewable(cfg, opts, cut.value)
            && RunAll(cfg, cfg.deployer, opts, cut.value).ok
            && Converged(cfg, RunAll(cfg, cfg.deployer, opts, cut.value).world)
  {
    var ctx, goals := CtxOf(cfg, opts.confirmFreshDeploy, w), Goals(cfg, opts.upgrades);
    InterruptedIsPrefix(ctx, goals, w, k);
    CutIsRenewable(cfg, opts, w, k);
    RunSucceeds(cfg, opts, Interrupted(ctx, goals, w, k));
  }

  /** A chain with nothing of the stack on it. */
  ghost predicate Virgin(w: World) {
    w.factory.None? && w.proxies == map[] && w.safes == map[]
  }

  /** The first deployment: on a virgin chain that takes the keyless deployer,
      derives addresses the standard way and has the Safe release the file's
      Safes need. Without the flag nothing is sent. */
  lemma FreshDeploySucceeds(cfg: NetworkConfig, confirm: bool, w: World)
    requires Valid(cfg) && Virgin(w)
    requires (w.create2Deployer || w.acceptsKeyless) && w.standardCreate2
    requires NameHoldsVendored(cfg, w, BearerLink) && NameHoldsVendored(cfg, w, OidcGoogle)
    requires cfg.safes != [] ==> HoldsRelease(w)
    ensures Converging(cfg, confirm, w).ok == confirm
    ensures confirm ==> Converged(cfg, Converging(cfg, confirm, w).world)
    ensures !confirm ==> Converging(cfg, confirm, w).world == w && Converging(cfg, confirm, w).trace == []
  {
    if confirm {
      RunSucceeds(cfg, NoUpgrades(confirm), w);
    } else {
      UnconfirmedStops(CtxOf(cfg, confirm, w), w, Goals(cfg, []));
    }
  }

  lemma UnconfirmedStops(ctx: Ctx, w: World, goals: seq<Goal>)
    requires w.factory.None? && !ctx.confirm && goals != [] && goals[0] == FreshDeployConfirmed
    ensures Run(ctx, goals, w) == Failed(w, [])
  {
  }
}
