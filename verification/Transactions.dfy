/** What apply may send, written in the file's own fields: every transaction of
    every run, finished or not, whoever signs. */
module Transactions {
  import opened Prelude
  import opened OwnerSets
  import opened Safes
  import opened Config
  import opened Worlds
  import opened Converge
  import opened Stability
  import opened Convergence
  import opened GoalState
  import opened Flow
  import opened Progress
  import opened Rotation

  /** One delegatecall into the multi-send contract that asks the Safe for
      nothing: no value, no gas terms, no refund. */
  predicate AsksNothing(exec: ExecTransaction) {
    && exec.to == 0x9641d764fc13c8B624c04430C7356C1C7C8102e2 && exec.operation == 1
    && exec.value == 0 && exec.safeTxGas == 0 && exec.baseGas == 0 && exec.gasPrice == 0
    && exec.gasToken == 0 && exec.refundReceiver == 0
  }

  /** What a fresh entry contract starts with. */
  predicate StartsAs(cfg: NetworkConfig, n: Name, slots: Slots) {
    && slots.versions == map[] && slots.rotationDue
    && match n
       case NotaryService =>
         slots.trusted == {cfg.notary} && slots.fee == cfg.fee && slots.recipient == cfg.artifacts.initialFeeRecipient
       case CeremonyProofVerifier => true
       case IdentityRegistry => slots.pointer == 0
       case HandleEscrow => slots.pointer == cfg.contracts.identityRegistry
       case GoogleJwtRoots => slots.pointer == cfg.contracts.notaryService
       case PlatformVerifier(X) => slots.notary == cfg.contracts.notaryService && slots.roots == 0
       case PlatformVerifier(GitHub) => slots.notary == cfg.contracts.notaryService && slots.roots == 0
       case PlatformVerifier(Google) => slots.notary == 0 && slots.roots == cfg.contracts.jwtRoots
       case CircuitVerifier(_, _) => false
  }

  /** A setting the file asks for, on the contract it belongs to. */
  predicate AskedFor(cfg: NetworkConfig, n: Name, change: Change) {
    match change
    case TrustNotary(key) => n == NotaryService && key == cfg.notary
    case ChargeFee(fee) => n == NotaryService && fee == cfg.fee
    case SweepTo(recipient) => n == NotaryService && cfg.feeRecipient == Some(recipient)
    case PointAt(to) =>
      || (n == IdentityRegistry && to == cfg.contracts.proofVerifier)
      || (n == GoogleJwtRoots && to == cfg.contracts.notaryService)
    case VerifyWith(_, _) => n.PlatformVerifier?
    case ReadRootsFrom(roots) => n == PlatformVerifier(Google) && roots == cfg.contracts.jwtRoots
    case RegisterVerifier(p, verifier) => n == CeremonyProofVerifier && verifier == DeclaredVerifier(cfg, p)
  }

  ghost predicate DeclaresSafe(cfg: NetworkConfig, safe: Address) {
    exists i :: 0 <= i < |cfg.safes| && SafeAt(cfg.safes[i]) == safe
  }

  /** What the file and the command allow; only on a dev chain is an acceptance
      sent for another key. */
  ghost predicate Allowed(cfg: NetworkConfig, upgrades: seq<Name>, dev: bool, tx: Tx) {
    match tx
    case InstallCreate2Deployer => true
    case InstallFactory => true
    case TransferOwnership(to) => cfg.owner == Some(to) && to != cfg.deployer
    case AcceptOwnership(key) => key == cfg.deployer || (dev && cfg.owner == Some(key))
    case DeployImplementation(n) => IsEntry(n)
    case DeployProxy(n, slots) => StartsAs(cfg, n, slots)
    case DeployCircuit(_) => true
    case SetOn(n, change) => AskedFor(cfg, n, change)
    case Upgrade(n) => n in upgrades
    case CreateSafe(safe) => DeclaresSafe(cfg, safe)
    case ExecSafe(safe, exec) => DeclaresSafe(cfg, safe) && AsksNothing(exec)
  }

  lemma SettingsAreAllowed(ctx: Ctx, g: Goal, w: World, u: seq<Name>)
    requires StackGoal(g) && !g.Deployed? && !g.Upgraded? && MoveFor(ctx, g, w).Send?
    ensures Allowed(ctx.cfg, u, w.dev, Act(ctx, g, w))
  {
  }

  lemma DeploysAreAllowed(ctx: Ctx, n: Name, w: World, u: seq<Name>)
    requires IsEntry(n) && MoveFor(ctx, Deployed(n), w).Send?
    ensures Allowed(ctx.cfg, u, w.dev, Act(ctx, Deployed(n), w))
  {
  }

  lemma ChainActsAreAllowed(ctx: Ctx, g: Goal, w: World, u: seq<Name>)
    requires !StackGoal(g) && !g.SafeCreated? && !g.SafeHandedOver? && MoveFor(ctx, g, w).Send?
    ensures Allowed(ctx.cfg, u, w.dev, Act(ctx, g, w))
  {
  }

  lemma SafeActsAreAllowed(ctx: Ctx, g: Goal, w: World, u: seq<Name>)
    requires (g.SafeCreated? || g.SafeHandedOver?) && MoveFor(ctx, g, w).Send?
    ensures Allowed(ctx.cfg, u, w.dev, Act(ctx, g, w))
  {
    assert SafeAt(ctx.cfg.safes[g.index]) == Act(ctx, g, w).safe;
  }

  lemma ActIsAllowed(ctx: Ctx, g: Goal, w: World, u: seq<Name>)
    requires WellFormed(g) && (g.Upgraded? ==> g.name in u) && MoveFor(ctx, g, w).Send?
    ensures Allowed(ctx.cfg, u, w.dev, Act(ctx, g, w))
  {
    if g.Deployed? {
      DeploysAreAllowed(ctx, g.name, w, u);
    } else if StackGoal(g) && !g.Upgraded? {
      SettingsAreAllowed(ctx, g, w, u);
    } else if g.SafeCreated? || g.SafeHandedOver? {
      SafeActsAreAllowed(ctx, g, w, u);
    } else if !g.Upgraded? {
      ChainActsAreAllowed(ctx, g, w, u);
    }
  }

  lemma DevStays(ctx: Ctx, g: Goal, w: World)
    ensures Perform(ctx, g, w).world.dev == w.dev
  {
    if MoveFor(ctx, g, w).Send? {
      PerformedWorld(ctx, g, w);
      var next := Apply(ctx.cfg, Act(ctx, g, w), w);
      if next.Some? { TxLeavesDev(ctx.cfg, Act(ctx, g, w), w, next.value); }
    }
  }

  lemma TxLeavesDev(cfg: NetworkConfig, tx: Tx, w: World, w': World)
    requires Apply(cfg, tx, w) == Some(w')
    ensures w'.dev == w.dev
  {
  }

  lemma PerformIsAllowed(ctx: Ctx, g: Goal, w: World, u: seq<Name>, tx: Tx)
    requires WellFormed(g) && (g.Upgraded? ==> g.name in u) && tx in Perform(ctx, g, w).trace
    ensures Allowed(ctx.cfg, u, w.dev, tx)
  {
    if MoveFor(ctx, g, w).Send? {
      SendShape(ctx, g, w);
      SentInPart(ctx, g, w);
      ActIsAllowed(ctx, g, w, u);
    }
  }

  lemma {:induction false} RunIsAllowed(ctx: Ctx, goals: seq<Goal>, w: World, u: seq<Name>, tx: Tx)
    requires forall g :: g in goals ==> WellFormed(g) && (g.Upgraded? ==> g.name in u)
    requires tx in Run(ctx, goals, w).trace
    ensures Allowed(ctx.cfg, u, w.dev, tx)
    decreases |goals|
  {
    if goals != [] {
      var first := Perform(ctx, goals[0], w);
      assert goals[0] in goals && forall h :: h in goals[1..] ==> h in goals;
      RunTrace(ctx, goals, w);
      DevStays(ctx, goals[0], w);
      if tx in first.trace {
        PerformIsAllowed(ctx, goals[0], w, u, tx);
      } else {
        RunIsAllowed(ctx, goals[1..], first.world, u, tx);
      }
    }
  }

  /** Whatever the chain, the signer and the upgrades requested, a run sends only
      what the file and the command ask for. */
  lemma OnlyWhatIsAskedFor(cfg: NetworkConfig, sender: Address, opts: Options, w: World, tx: Tx)
    requires tx in RunAll(cfg, sender, opts, w).trace
    ensures sender == cfg.deployer && Allowed(cfg, opts.upgrades, w.dev, tx)
  {
    var goals := Goals(cfg, opts.upgrades);
    forall g | g in goals ensures WellFormed(g) && (g.Upgraded? ==> g.name in opts.upgrades) {
      GoalIndexed(cfg, opts.upgrades, g);
    }
    RunIsAllowed(CtxOf(cfg, opts.confirmFreshDeploy, w), goals, w, opts.upgrades, tx);
  }

  // ----- What a run leaves as it was -----

  /** The settings of an entry contract before and after a run: moved onto what
      the file asks for, or as they were. */
  ghost predicate MovesOnly(cfg: NetworkConfig, n: Name, a: Slots, b: Slots) {
    match n
    case NotaryService =>
      && b == a.(trusted := b.trusted, fee := b.fee, recipient := b.recipient)
      && (b.trusted == a.trusted || b.trusted == a.trusted + {cfg.notary})
      && (b.fee == a.fee || b.fee == cfg.fee)
      && (b.recipient == a.recipient || cfg.feeRecipient == Some(b.recipient))
    case CeremonyProofVerifier =>
      && b == a.(versions := b.versions) && a.versions.Keys <= b.versions.Keys
      && forall p :: p in b.versions ==>
           b.versions[p] == DeclaredVerifier(cfg, p) || (p in a.versions && b.versions[p] == a.versions[p])
    case IdentityRegistry =>
      b == a.(pointer := b.pointer) && (b.pointer == a.pointer || b.pointer == cfg.contracts.proofVerifier)
    case HandleEscrow => b == a
    case GoogleJwtRoots =>
      b == a.(pointer := b.pointer) && (b.pointer == a.pointer || b.pointer == cfg.contracts.notaryService)
    case PlatformVerifier(p) =>
      && b == a.(honk := b.honk, roots := b.roots)
      && (b.roots == a.roots || (p.Google? && b.roots == cfg.contracts.jwtRoots))
    case CircuitVerifier(_, _) => b == a
  }

  lemma MovesOnlyTwice(cfg: NetworkConfig, n: Name, a: Slots, b: Slots, c: Slots)
    requires MovesOnly(cfg, n, a, b) && MovesOnly(cfg, n, b, c)
    ensures MovesOnly(cfg, n, a, c)
  {
  }

  lemma SettingMovesOnly(cfg: NetworkConfig, n: Name, slots: Slots, change: Change)
    requires AskedFor(cfg, n, change) && (change.VerifyWith? ==> change.notary == slots.notary)
    ensures MovesOnly(cfg, n, slots, Changed(slots, change))
  {
  }

  /** The proxy keeps its owner, and its implementation unless it is upgraded. */
  ghost predicate LeavesAlone(cfg: NetworkConfig, u: seq<Name>, n: Name, a: Proxy, b: Proxy) {
    && b.owner == a.owner && (b.impl == a.impl || (n in u && b.impl == Release(cfg, n)))
    && MovesOnly(cfg, n, a.slots, b.slots)
  }

  ghost predicate AllLeftAlone(cfg: NetworkConfig, u: seq<Name>, w: World, end: World) {
    forall n :: n in w.proxies ==> n in end.proxies && LeavesAlone(cfg, u, n, w.proxies[n], end.proxies[n])
  }

  lemma MovesOnlyNothing(cfg: NetworkConfig, n: Name, slots: Slots)
    ensures MovesOnly(cfg, n, slots, slots)
  {
  }

  lemma SettingLeavesAlone(cfg: NetworkConfig, u: seq<Name>, n: Name, change: Change, w: World, w': World)
    requires AskedFor(cfg, n, change) && Apply(cfg, SetOn(n, change), w) == Some(w')
    requires change.VerifyWith? ==> n in w.proxies && change.notary == SlotsOf(w, n).notary
    ensures AllLeftAlone(cfg, u, w, w')
  {
    SettingMovesOnly(cfg, n, SlotsOf(w, n), change);
    forall m | m in w.proxies ensures m in w'.proxies && LeavesAlone(cfg, u, m, w.proxies[m], w'.proxies[m]) {
      MovesOnlyNothing(cfg, m, SlotsOf(w, m));
    }
  }

  lemma OtherTxLeavesAlone(cfg: NetworkConfig, u: seq<Name>, tx: Tx, w: World, w': World)
    requires !tx.SetOn? && (tx.Upgrade? ==> tx.name in u) && Apply(cfg, tx, w) == Some(w')
    ensures AllLeftAlone(cfg, u, w, w')
  {
    forall m | m in w.proxies ensures m in w'.proxies && LeavesAlone(cfg, u, m, w.proxies[m], w'.proxies[m]) {
      MovesOnlyNothing(cfg, m, SlotsOf(w, m));
    }
  }

  lemma PerformLeavesAlone(ctx: Ctx, g: Goal, w: World, u: seq<Name>)
    requires WellFormed(g) && (g.Upgraded? ==> g.name in u)
    ensures AllLeftAlone(ctx.cfg, u, w, Perform(ctx, g, w).world)
  {
    forall m | m in w.proxies ensures LeavesAlone(ctx.cfg, u, m, w.proxies[m], w.proxies[m]) {
      MovesOnlyNothing(ctx.cfg, m, SlotsOf(w, m));
    }
    if MoveFor(ctx, g, w).Send? {
      PerformedWorld(ctx, g, w);
      var tx := Act(ctx, g, w);
      var next := Apply(ctx.cfg, tx, w);
      if next.Some? {
        ActIsAllowed(ctx, g, w, u);
        if tx.SetOn? {
          if HandsNotaryBack(tx) { NotaryAsStored(ctx, g, w); }
          SettingLeavesAlone(ctx.cfg, u, tx.name, tx.change, w, next.value);
        } else {
          OtherTxLeavesAlone(ctx.cfg, u, tx, w, next.value);
        }
      }
    }
  }

  lemma AloneTwice(cfg: NetworkConfig, u: seq<Name>, a: World, b: World, c: World)
    requires AllLeftAlone(cfg, u, a, b) && AllLeftAlone(cfg, u, b, c)
    ensures AllLeftAlone(cfg, u, a, c)
  {
    forall n | n in a.proxies ensures n in c.proxies && LeavesAlone(cfg, u, n, a.proxies[n], c.proxies[n]) {
      MovesOnlyTwice(cfg, n, SlotsOf(a, n), SlotsOf(b, n), SlotsOf(c, n));
    }
  }

  lemma {:induction false} RunLeavesAlone(ctx: Ctx, goals: seq<Goal>, w: World, u: seq<Name>)
    requires forall g :: g in goals ==> WellFormed(g) && (g.Upgraded? ==> g.name in u)
    ensures AllLeftAlone(ctx.cfg, u, w, Run(ctx, goals, w).world)
    decreases |goals|
  {
    if goals == [] {
      forall m | m in w.proxies ensures LeavesAlone(ctx.cfg, u, m, w.proxies[m], w.proxies[m]) {
        MovesOnlyNothing(ctx.cfg, m, SlotsOf(w, m));
      }
    } else {
      var first := Perform(ctx, goals[0], w);
      assert goals[0] in goals && forall h :: h in goals[1..] ==> h in goals;
      RunTrace(ctx, goals, w);
      PerformLeavesAlone(ctx, goals[0], w, u);
      if first.ok {
        RunLeavesAlone(ctx, goals[1..], first.world, u);
        AloneTwice(ctx.cfg, u, w, first.world, Run(ctx, goals[1..], first.world).world);
      }
    }
  }

  /** No run, finished or not, changes of a contract it found what the file and
      the command do not ask for: no key loses its trust, no registration is
      lost, no pointer moves elsewhere, no implementation changes unasked. */
  lemma NothingElseMoves(cfg: NetworkConfig, sender: Address, opts: Options, w: World)
    ensures AllLeftAlone(cfg, opts.upgrades, w, RunAll(cfg, sender, opts, w).world)
  {
    var goals := Goals(cfg, opts.upgrades);
    forall g | g in goals ensures WellFormed(g) && (g.Upgraded? ==> g.name in opts.upgrades) {
      GoalIndexed(cfg, opts.upgrades, g);
    }
    RunLeavesAlone(CtxOf(cfg, opts.confirmFreshDeploy, w), goals, w, opts.upgrades);
    RunLeavesAlone(CtxOf(cfg, opts.confirmFreshDeploy, w), [], w, opts.upgrades);
  }

  // ----- In what order -----

  /** The goals of a run without upgrades in full. */
  lemma GoalsInOrder(cfg: NetworkConfig)
    ensures Goals(cfg, []) == [
              FreshDeployConfirmed, Create2DeployerInstalled, FactoryInstalled, FactoryOwned,
              Deployed(NotaryService), NotaryTrusted, FeeCharged, RecipientSet,
              Deployed(CeremonyProofVerifier),
              Deployed(IdentityRegistry), RegistryWired,
              Deployed(HandleEscrow), EscrowBound,
              Deployed(GoogleJwtRoots), RootsWired,
              CircuitDeployed(BearerLink), Deployed(PlatformVerifier(X)), TrustRootsSet(X), Registered(X),
              CircuitDeployed(BearerLink), Deployed(PlatformVerifier(GitHub)), TrustRootsSet(GitHub), Registered(GitHub),
              CircuitDeployed(OidcGoogle), Deployed(PlatformVerifier(Google)), TrustRootsSet(Google), GoogleRootsRead,
              Registered(Google),
              Accepting(X), Accepting(GitHub), Accepting(Google),
              OwnershipOffered, OwnershipAccepted, SafeReleaseChecked] + SafeGoals(cfg, 0)
  {
  }

  /** Each Safe after the one before it, created and then handed over. */
  lemma {:induction false} SafesInOrder(cfg: NetworkConfig, i: nat, j: nat)
    requires i <= j < |cfg.safes|
    ensures |SafeGoals(cfg, i)| == 2 * (|cfg.safes| - i)
    ensures SafeGoals(cfg, i)[2 * (j - i)] == SafeCreated(j) && SafeGoals(cfg, i)[2 * (j - i) + 1] == SafeHandedOver(j)
    decreases |cfg.safes| - i
  {
    if i + 1 < |cfg.safes| { SafesInOrder(cfg, i + 1, if i < j then j else j + 1); }
  }
}
