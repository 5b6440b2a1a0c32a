/** A goal once met stays met: through every later transaction of a run, and
    whoever locates the circuit verifiers again. */
module Stability {
  import opened Prelude
  import opened OwnerSets
  import opened OwnerManager
  import opened Safes
  import opened Config
  import opened Worlds
  import opened Converge

  /** A goal that needs nothing in `w`. An upgrade is never met: it runs once
      per request. */
  predicate Met(ctx: Ctx, g: Goal, w: World) {
    MoveFor(ctx, g, w).Keep?
  }

  /** Everything the factory may have to deploy. */
  predicate NeededBy(g: Goal) {
    (g.Deployed? && IsEntry(g.name)) || g.CircuitDeployed?
  }

  // ----- The owner change apply sends -----

  lemma ExecutedApplies(cfg: NetworkConfig, w: World, safe: Address, exec: ExecTransaction, end: OwnerStore)
    requires safe in w.safes && Execute(safe, w.safes[safe], PurseOf(w, safe), cfg.deployer, exec) == Some(end)
    ensures Apply(cfg, ExecSafe(safe, exec), w) == Some(w.(safes := w.safes[safe := end]))
  {
  }

  /** What a hand-over leaves behind: only its Safe, holding the declared set. */
  lemma HandOverApplies(cfg: NetworkConfig, w: World, decl: SafeDecl) returns (end: OwnerStore)
    requires AdmittedSafe(cfg, decl) && SafeAt(decl) in w.safes && Healthy(SafeAt(decl), w.safes[SafeAt(decl)])
    requires OwnersOf(w.safes[SafeAt(decl)]).SignsAlone(cfg.deployer)
    ensures Apply(cfg, HandOver(cfg, SafeAt(decl), OwnersOf(w.safes[SafeAt(decl)]), decl.Declared()), w)
            == Some(w.(safes := w.safes[SafeAt(decl) := end]))
    ensures OwnersOf(end).SameAs(decl.Declared()) && end.threshold == decl.threshold
  {
    var safe := SafeAt(decl);
    end := DeclaredHandOver(decl, safe, w.safes[safe], PurseOf(w, safe), cfg.deployer);
    ExecutedApplies(cfg, w, safe, HandOverTransaction(safe, cfg.deployer, OwnersOf(w.safes[safe]), decl.Declared()), end);
  }

  // ----- Meeting a goal -----

  /** The sites a run works with name only the release's own addresses. */
  predicate Located(ctx: Ctx) {
    && (ctx.sites.bearerLink.Named? ==> ctx.sites.bearerLink.address == At(ctx.cfg, OwnVerifier(ctx.cfg, BearerLink)))
    && (ctx.sites.oidcGoogle.Named? ==> ctx.sites.oidcGoogle.address == At(ctx.cfg, OwnVerifier(ctx.cfg, OidcGoogle)))
  }

  predicate WellFormed(g: Goal) {
    (g.Deployed? || g.Upgraded?) ==> IsEntry(g.name)
  }

  lemma SendOne(cfg: NetworkConfig, tx: Tx, w: World)
    ensures SendAll(cfg, [tx], w) ==
            if Apply(cfg, tx, w).Some? then Outcome(true, Apply(cfg, tx, w).value, [tx], [], [])
            else Failed(w, [])
  {
    assert [tx][1..] == [];
  }

  lemma SendTwo(cfg: NetworkConfig, n: Name, tx: Tx, w: World)
    ensures SendAll(cfg, [DeployImplementation(n), tx], w) ==
            if Apply(cfg, tx, w).Some? then Outcome(true, Apply(cfg, tx, w).value, [DeployImplementation(n), tx], [], [])
            else Failed(w, [DeployImplementation(n)])
  {
    assert [DeployImplementation(n), tx][1..] == [tx];
    SendOne(cfg, tx, w);
  }

  /** The transaction of a goal that acts on the world; an implementation
      deployed before it changes nothing a proxy shows. */
  function Act(ctx: Ctx, g: Goal, w: World): Tx
    requires MoveFor(ctx, g, w).Send?
  {
    var txs := MoveFor(ctx, g, w).txs;
    if g.Deployed? || g.Upgraded? then txs[1] else txs[0]
  }

  lemma SendShape(ctx: Ctx, g: Goal, w: World)
    requires MoveFor(ctx, g, w).Send?
    ensures MoveFor(ctx, g, w).txs ==
            if g.Deployed? || g.Upgraded? then [DeployImplementation(g.name), Act(ctx, g, w)] else [Act(ctx, g, w)]
    ensures !Act(ctx, g, w).DeployImplementation?
  {
  }

  /** A goal that acted: its transactions, and the world of the last one. */
  lemma PerformSends(ctx: Ctx, g: Goal, w: World)
    requires MoveFor(ctx, g, w).Send?
    ensures var act := Apply(ctx.cfg, Act(ctx, g, w), w);
            var p := Perform(ctx, g, w);
            && p.ok == (act.Some? && Confirmed(ctx, g, act.value))
            && (p.ok ==> p.world == act.value && p.trace == MoveFor(ctx, g, w).txs && p.deployed == Reported(ctx, g))
  {
    SendShape(ctx, g, w);
    SendOne(ctx.cfg, Act(ctx, g, w), w);
    if g.Deployed? || g.Upgraded? {
      SendTwo(ctx.cfg, g.name, Act(ctx, g, w), w);
    }
  }

  /** Goals about the entry contracts and the circuit verifiers. */
  predicate StackGoal(g: Goal) {
    match g
    case FreshDeployConfirmed => false
    case Create2DeployerInstalled => false
    case FactoryInstalled => false
    case FactoryOwned => false
    case OwnershipOffered => false
    case OwnershipAccepted => false
    case SafeReleaseChecked => false
    case SafeCreated(_) => false
    case SafeHandedOver(_) => false
    case _ => true
  }

  lemma DeployMeets(ctx: Ctx, g: Goal, w: World, w': World)
    requires (g.Deployed? || g.CircuitDeployed?) && Located(ctx) && WellFormed(g)
    requires MoveFor(ctx, g, w).Send? && Apply(ctx.cfg, Act(ctx, g, w), w) == Some(w')
    ensures Met(ctx, g, w')
  {
  }

  lemma RotationMeets(ctx: Ctx, p: Platform, w: World, w': World)
    requires MoveFor(ctx, TrustRootsSet(p), w).Send?
    requires Apply(ctx.cfg, Act(ctx, TrustRootsSet(p), w), w) == Some(w')
    ensures Met(ctx, TrustRootsSet(p), w')
  {
  }

  lemma SettingMeets(ctx: Ctx, g: Goal, w: World, w': World)
    requires StackGoal(g) && !g.Deployed? && !g.CircuitDeployed? && !g.Upgraded? && !g.TrustRootsSet?
    requires MoveFor(ctx, g, w).Send? && Apply(ctx.cfg, Act(ctx, g, w), w) == Some(w')
    ensures Met(ctx, g, w')
  {
  }

  lemma ChainActMeets(ctx: Ctx, g: Goal, w: World, w': World)
    requires !StackGoal(g) && MoveFor(ctx, g, w).Send?
    requires Apply(ctx.cfg, Act(ctx, g, w), w) == Some(w') && Confirmed(ctx, g, w')
    ensures Met(ctx, g, w')
  {
  }

  /** What a goal set out to do holds once it has acted. */
  lemma ActMeets(ctx: Ctx, g: Goal, w: World, w': World)
    requires Located(ctx) && WellFormed(g) && !g.Upgraded?
    requires MoveFor(ctx, g, w).Send?
    requires Apply(ctx.cfg, Act(ctx, g, w), w) == Some(w') && Confirmed(ctx, g, w')
    ensures Met(ctx, g, w')
  {
    if !StackGoal(g) {
      ChainActMeets(ctx, g, w, w');
    } else if g.Deployed? || g.CircuitDeployed? {
      DeployMeets(ctx, g, w, w');
    } else if g.TrustRootsSet? {
      RotationMeets(ctx, g.platform, w, w');
    } else {
      SettingMeets(ctx, g, w, w');
    }
  }

  /** A name on record has code, so its goal is met, never reused. */
  lemma NeverReused(ctx: Ctx, g: Goal, w: World)
    requires RecordsHold(ctx.cfg, w) && Located(ctx) && WellFormed(g)
    ensures !MoveFor(ctx, g, w).Reuse?
  {
  }

  /** A name the factory has on record is taken for deployed where the record is
      the predicted address, and ends the run where it is another; neither
      sends anything. */
  lemma RecordedName(ctx: Ctx, g: Goal, n: Name, w: World)
    requires (g == Deployed(n) && IsEntry(n) && n !in w.proxies) || (
      g.CircuitDeployed? && n == CircuitVerifier(g.circuit, ctx.cfg.artifacts.version)
      && CircuitMissing(ctx, w, g.circuit))
    requires w.factory.Some? && n in w.factory.value.records
    requires n.PlatformVerifier? ==>
      CodeAt(w, ctx.CircuitAt(n.platform)) == Some(Vendored(ctx.cfg, CircuitOf(n.platform)))
    ensures var p := Perform(ctx, g, w);
            && p.world == w && p.trace == [] && (p.ok <==> w.factory.value.records[n] == At(ctx.cfg, n))
            && p.deployed == if p.ok then [if g.Deployed? then Contract(n) else CircuitCode(g.circuit)] else []
  {
  }

  // ----- Keeping goals met -----

  /** The two goals whose order matters: the deployer takes the factory before
      it offers it on, and hands it on only with nothing left to deploy. */
  predicate Undisturbed(ctx: Ctx, g: Goal, h: Goal, w: World) {
    && (h.FactoryOwned? ==> !g.OwnershipOffered? && !g.OwnershipAccepted?)
    && (h.OwnershipAccepted? && g.FactoryOwned? ==> !NeedsFactory(ctx, w))
  }

  /** A met stack goal reads proxies and code only. */
  lemma StackFrame(ctx: Ctx, g: Goal, w: World, w': World)
    requires StackGoal(g) && WellFormed(g) && Met(ctx, g, w)
    requires w'.proxies == w.proxies && w'.code == w.code
    ensures Met(ctx, g, w')
  {
  }

  /** The other goals read no proxy, only that it is there. */
  lemma ChainFrame(ctx: Ctx, g: Goal, w: World, w': World)
    requires !StackGoal(g) && Met(ctx, g, w)
    requires w'.dev == w.dev && w'.create2Deployer == w.create2Deployer && w'.safes == w.safes
    requires w.factory.Some? == w'.factory.Some?
    requires w.factory.Some? ==>
      w'.factory.value.owner == w.factory.value.owner && w'.factory.value.pending == w.factory.value.pending
    requires w.proxies.Keys <= w'.proxies.Keys
    requires forall a :: a in w.code ==> a in w'.code && w'.code[a] == w.code[a]
    ensures Met(ctx, g, w')
  {
  }

  /** What a run writes through a setter: always the value its file wants. */
  predicate Wanted(ctx: Ctx, n: Name, change: Change) {
    match change
    case TrustNotary(key) => n == NotaryService && key == ctx.cfg.notary
    case ChargeFee(fee) => n == NotaryService && fee == ctx.cfg.fee
    case SweepTo(recipient) => n == NotaryService && ctx.cfg.feeRecipient == Some(recipient)
    case PointAt(to) =>
      || (n == IdentityRegistry && to == At(ctx.cfg, CeremonyProofVerifier))
      || (n == GoogleJwtRoots && to == At(ctx.cfg, NotaryService))
    case VerifyWith(_, honk) => n.PlatformVerifier? && honk == ctx.CircuitAt(n.platform)
    case ReadRootsFrom(roots) => n == PlatformVerifier(Google) && roots == At(ctx.cfg, GoogleJwtRoots)
    case RegisterVerifier(p, verifier) => n == CeremonyProofVerifier && verifier == At(ctx.cfg, PlatformVerifier(p))
  }

  /** What holds of every transaction a goal sends. */
  predicate Benign(ctx: Ctx, tx: Tx) {
    match tx
    case SetOn(n, change) => Wanted(ctx, n, change)
    case Upgrade(n) => IsEntry(n)
    case DeployProxy(n, _) => IsEntry(n)
    case _ => true
  }

  lemma ActsAreBenign(ctx: Ctx, h: Goal, w: World)
    requires WellFormed(h) && MoveFor(ctx, h, w).Send?
    ensures Benign(ctx, Act(ctx, h, w))
  {
  }

  /** The change is written and nothing else. */
  predicate Writes(w: World, w': World, n: Name, change: Change) {
    && n in w.proxies && w'.code == w.code
    && w'.proxies == w.proxies[n := w.proxies[n].(slots := Changed(w.proxies[n].slots, change))]
  }

  lemma RegistrationKeeps(ctx: Ctx, g: Goal, w: World, w': World, n: Name, change: Change)
    requires StackGoal(g) && WellFormed(g) && Met(ctx, g, w)
    requires change.RegisterVerifier? && change.verifier != ZERO
    requires Wanted(ctx, n, change) && Writes(w, w', n, change)
    ensures Met(ctx, g, w')
  {
  }

  lemma PlatformSetterKeeps(ctx: Ctx, g: Goal, w: World, w': World, n: Name, change: Change)
    requires StackGoal(g) && WellFormed(g) && Met(ctx, g, w)
    requires change.VerifyWith? || change.ReadRootsFrom?
    requires Wanted(ctx, n, change) && Writes(w, w', n, change)
    ensures Met(ctx, g, w')
  {
  }

  lemma SetterKeeps(ctx: Ctx, g: Goal, w: World, w': World, n: Name, change: Change)
    requires StackGoal(g) && WellFormed(g) && Met(ctx, g, w)
    requires !change.VerifyWith? && !change.ReadRootsFrom? && !change.RegisterVerifier?
    requires Wanted(ctx, n, change) && Writes(w, w', n, change)
    ensures Met(ctx, g, w')
  {
  }

  lemma DeployKeeps(ctx: Ctx, g: Goal, w: World, w': World, n: Name, proxy: Proxy)
    requires StackGoal(g) && WellFormed(g) && Met(ctx, g, w)
    requires n !in w.proxies && w'.proxies == w.proxies[n := proxy] && w'.code == w.code
    ensures Met(ctx, g, w')
  {
  }

  lemma CircuitKeeps(ctx: Ctx, g: Goal, w: World, w': World, a: Address, code: Code)
    requires StackGoal(g) && WellFormed(g) && Met(ctx, g, w)
    requires a !in w.code && w'.proxies == w.proxies && w'.code == w.code[a := code]
    ensures Met(ctx, g, w')
  {
  }

  /** The proxy's implementation is the release's, and nothing else differs. */
  predicate Upgrades(cfg: NetworkConfig, w: World, w': World, n: Name) {
    && n in w.proxies && w'.code == w.code
    && w'.proxies == w.proxies[n := w.proxies[n].(impl := Release(cfg, n))]
  }

  lemma UpgradeKeepsWiring(ctx: Ctx, g: Goal, w: World, w': World, n: Name)
    requires g.TrustRootsSet? || g.GoogleRootsRead? || g.Registered? || g.Accepting? || g.RegistryWired?
    requires Met(ctx, g, w) && IsEntry(n) && Upgrades(ctx.cfg, w, w', n)
    ensures Met(ctx, g, w')
  {
  }

  lemma UpgradeKeeps(ctx: Ctx, g: Goal, w: World, w': World, n: Name)
    requires StackGoal(g) && WellFormed(g) && Met(ctx, g, w) && IsEntry(n)
    requires Upgrades(ctx.cfg, w, w', n)
    ensures Met(ctx, g, w')
  {
    if g.TrustRootsSet? || g.GoogleRootsRead? || g.Registered? || g.Accepting? || g.RegistryWired? {
      UpgradeKeepsWiring(ctx, g, w, w', n);
    }
  }

  lemma StackGoalsStay(ctx: Ctx, g: Goal, w: World, tx: Tx, w': World)
    requires StackGoal(g) && WellFormed(g) && Met(ctx, g, w)
    requires Valid(ctx.cfg) && Benign(ctx, tx) && Apply(ctx.cfg, tx, w) == Some(w')
    ensures Met(ctx, g, w')
  {
    match tx {
      case DeployProxy(n, slots) => DeployKeeps(ctx, g, w, w', n, w'.proxies[n]);
      case DeployCircuit(c) =>
        CircuitKeeps(ctx, g, w, w', At(ctx.cfg, OwnVerifier(ctx.cfg, c)), Vendored(ctx.cfg, c));
      case SetOn(n, change) =>
        if change.RegisterVerifier? {
          OwnIsPlaced(ctx.cfg, PlatformVerifier(change.platform));
          RegistrationKeeps(ctx, g, w, w', n, change);
        } else if change.VerifyWith? || change.ReadRootsFrom? {
          PlatformSetterKeeps(ctx, g, w, w', n, change);
        } else {
          SetterKeeps(ctx, g, w, w', n, change);
        }
      case Upgrade(n) => UpgradeKeeps(ctx, g, w, w', n);
      case _ => StackFrame(ctx, g, w, w');
    }
  }

  // ----- The factory, its owner and the Safes -----

  lemma CreateKeeps(ctx: Ctx, g: Goal, w: World, w': World, safe: Address, store: OwnerStore)
    requires !StackGoal(g) && Met(ctx, g, w)
    requires safe !in w.safes && w' == w.(safes := w.safes[safe := store])
    ensures Met(ctx, g, w')
  {
  }

  lemma ExecKeeps(ctx: Ctx, g: Goal, w: World, w': World, safe: Address, store: OwnerStore)
    requires !StackGoal(g) && Met(ctx, g, w)
    requires g.SafeHandedOver? && g.index < |ctx.cfg.safes| ==> SafeAt(ctx.cfg.safes[g.index]) != safe
    requires w' == w.(safes := w.safes[safe := store])
    ensures Met(ctx, g, w')
  {
  }

  /** A Safe whose goal is met is not one another goal acts on. */
  lemma HandOverIsElsewhere(ctx: Ctx, i: nat, j: nat, w: World, safe: Address, exec: ExecTransaction)
    requires Valid(ctx.cfg) && i < |ctx.cfg.safes|
    requires Met(ctx, SafeHandedOver(i), w) && MoveFor(ctx, SafeHandedOver(j), w) == Send([ExecSafe(safe, exec)])
    ensures SafeAt(ctx.cfg.safes[i]) != safe
  {
    if i != j { SafesApart(ctx.cfg, i, j); }
  }

  lemma SafesApart(cfg: NetworkConfig, i: nat, j: nat)
    requires Valid(cfg) && i < |cfg.safes| && j < |cfg.safes| && i != j
    ensures SafeAt(cfg.safes[i]) != SafeAt(cfg.safes[j]) && cfg.safes[i].name != cfg.safes[j].name
  {
  }

  lemma InstallKeeps(ctx: Ctx, g: Goal, h: Goal, w: World, w': World)
    requires !StackGoal(g) && Met(ctx, g, w)
    requires h.Create2DeployerInstalled? || h.FactoryInstalled?
    requires MoveFor(ctx, h, w).Send? && Apply(ctx.cfg, Act(ctx, h, w), w) == Some(w')
    ensures Met(ctx, g, w')
  {
  }

  /** The factory is owned as `owner` and `pending` say, and nothing else has
      changed. */
  predicate FactoryOwnedAs(w: World, w': World, owner: Address, pending: Address) {
    && w.factory.Some?
    && w' == w.(factory := Some(w.factory.value.(owner := owner, pending := pending)))
  }

  lemma TakingKeeps(ctx: Ctx, g: Goal, w: World, w': World)
    requires !StackGoal(g) && !g.OwnershipOffered? && !g.OwnershipAccepted? && Met(ctx, g, w)
    requires FactoryOwnedAs(w, w', ctx.cfg.deployer, ZERO)
    ensures Met(ctx, g, w')
  {
  }

  lemma OfferKeeps(ctx: Ctx, g: Goal, w: World, w': World)
    requires !StackGoal(g) && Met(ctx, g, w)
    requires w.factory.Some? && FactoryOwnedAs(w, w', w.factory.value.owner, OperationalOwner(ctx.cfg))
    ensures Met(ctx, g, w')
  {
  }

  lemma HandOnKeeps(ctx: Ctx, g: Goal, w: World, w': World)
    requires !StackGoal(g) && Met(ctx, g, w)
    requires FactoryOwnedAs(w, w', OperationalOwner(ctx.cfg), ZERO)
    requires g.FactoryOwned? ==> !NeedsFactory(ctx, w)
    ensures Met(ctx, g, w')
  {
  }

  lemma OwnershipKeeps(ctx: Ctx, g: Goal, h: Goal, w: World, tx: Tx, w': World)
    requires !StackGoal(g) && Undisturbed(ctx, g, h, w) && Met(ctx, g, w)
    requires h.FactoryOwned? || h.OwnershipOffered? || h.OwnershipAccepted?
    requires MoveFor(ctx, h, w).Send? && tx == Act(ctx, h, w) && Apply(ctx.cfg, tx, w) == Some(w')
    ensures Met(ctx, g, w')
  {
    if h.FactoryOwned? {
      TakingKeeps(ctx, g, w, w');
    } else if h.OwnershipOffered? {
      OfferKeeps(ctx, g, w, w');
    } else {
      HandOnKeeps(ctx, g, w, w');
    }
  }

  /** Transactions that leave the factory's owner and the Safes alone. */
  predicate StackTx(tx: Tx) {
    tx.DeployProxy? || tx.DeployCircuit? || tx.SetOn? || tx.Upgrade? || tx.DeployImplementation?
  }

  lemma StackGoalsSendStackTx(ctx: Ctx, h: Goal, w: World)
    requires StackGoal(h) && MoveFor(ctx, h, w).Send?
    ensures StackTx(Act(ctx, h, w))
  {
  }

  lemma StackTxFrame(cfg: NetworkConfig, tx: Tx, w: World, w': World)
    requires StackTx(tx) && Apply(cfg, tx, w) == Some(w')
    ensures w'.dev == w.dev && w'.create2Deployer == w.create2Deployer && w'.safes == w.safes
    ensures w.factory.Some? == w'.factory.Some?
    ensures w.factory.Some? ==>
      w'.factory.value.owner == w.factory.value.owner && w'.factory.value.pending == w.factory.value.pending
    ensures w.proxies.Keys <= w'.proxies.Keys
    ensures forall a :: a in w.code ==> a in w'.code && w'.code[a] == w.code[a]
  {
  }

  lemma CreationWrites(cfg: NetworkConfig, safe: Address, w: World, w': World)
    requires Apply(cfg, CreateSafe(safe), w) == Some(w')
    ensures safe !in w.safes && safe in w'.safes && w' == w.(safes := w.safes[safe := w'.safes[safe]])
  {
  }

  lemma ExecWrites(cfg: NetworkConfig, safe: Address, exec: ExecTransaction, w: World, w': World)
    requires Apply(cfg, ExecSafe(safe, exec), w) == Some(w')
    ensures safe in w'.safes && w' == w.(safes := w.safes[safe := w'.safes[safe]])
  {
  }

  lemma SafeTxStays(ctx: Ctx, g: Goal, h: Goal, w: World, tx: Tx, w': World)
    requires !StackGoal(g) && Valid(ctx.cfg) && Met(ctx, g, w)
    requires (h.SafeCreated? && tx.CreateSafe?) || (h.SafeHandedOver? && tx.ExecSafe?)
    requires MoveFor(ctx, h, w) == Send([tx]) && Apply(ctx.cfg, tx, w) == Some(w')
    ensures Met(ctx, g, w')
  {
    if tx.CreateSafe? {
      CreationWrites(ctx.cfg, tx.safe, w, w');
      CreateKeeps(ctx, g, w, w', tx.safe, w'.safes[tx.safe]);
    } else {
      ExecWrites(ctx.cfg, tx.safe, tx.exec, w, w');
      if g.SafeHandedOver? && g.index < |ctx.cfg.safes| {
        HandOverIsElsewhere(ctx, g.index, h.index, w, tx.safe, tx.exec);
      }
      ExecKeeps(ctx, g, w, w', tx.safe, w'.safes[tx.safe]);
    }
  }

  lemma SafeGoalsSendOne(ctx: Ctx, h: Goal, w: World, tx: Tx)
    requires (h.SafeCreated? || h.SafeHandedOver?) && MoveFor(ctx, h, w).Send? && tx == Act(ctx, h, w)
    ensures MoveFor(ctx, h, w) == Send([tx]) && (if h.SafeCreated? then tx.CreateSafe? else tx.ExecSafe?)
  {
  }

  lemma ChainGoalsStay(ctx: Ctx, g: Goal, h: Goal, w: World, tx: Tx, w': World)
    requires !StackGoal(g) && Undisturbed(ctx, g, h, w) && Valid(ctx.cfg) && Met(ctx, g, w)
    requires MoveFor(ctx, h, w).Send? && tx == Act(ctx, h, w) && Apply(ctx.cfg, tx, w) == Some(w')
    ensures Met(ctx, g, w')
  {
    if StackGoal(h) {
      StackGoalsSendStackTx(ctx, h, w);
      StackTxFrame(ctx.cfg, tx, w, w');
      ChainFrame(ctx, g, w, w');
    } else if h.SafeCreated? || h.SafeHandedOver? {
      SafeGoalsSendOne(ctx, h, w, tx);
      SafeTxStays(ctx, g, h, w, tx, w');
    } else if h.Create2DeployerInstalled? || h.FactoryInstalled? {
      InstallKeeps(ctx, g, h, w, w');
    } else {
      OwnershipKeeps(ctx, g, h, w, tx, w');
    }
  }

  /** No goal undoes another: what was met before `h` acts is met after. */
  lemma ActKeeps(ctx: Ctx, g: Goal, h: Goal, w: World, tx: Tx, w': World)
    requires WellFormed(g) && WellFormed(h) && Undisturbed(ctx, g, h, w)
    requires Valid(ctx.cfg) && Met(ctx, g, w)
    requires MoveFor(ctx, h, w).Send? && tx == Act(ctx, h, w) && Apply(ctx.cfg, tx, w) == Some(w')
    ensures Met(ctx, g, w')
  {
    if StackGoal(g) {
      ActsAreBenign(ctx, h, w);
      StackGoalsStay(ctx, g, w, tx, w');
    } else {
      ChainGoalsStay(ctx, g, h, w, tx, w');
    }
  }
}
