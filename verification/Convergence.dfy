/** The main results about whole runs: what a finished run leaves, running it
    again, and running it after it was cut short. */
module Convergence {
  import opened Prelude
  import opened Config
  import opened Worlds
  import opened Converge
  import opened Stability
  import opened Interruption
  import opened Recovery
  import opened Sites

  // ----- The goals of a run are well ordered -----

  lemma {:induction false} UpgradesOfShape(u: seq<Name>, n: Name)
    ensures forall g :: g in UpgradesOf(u, n) ==> g == Upgraded(n) && n in u
  {
    if u != [] { UpgradesOfShape(u[1..], n); }
  }

  /** A goal of the stack: never one of the ordered ones, and an upgrade only
      of a requested entry. */
  predicate Shaped(u: seq<Name>, g: Goal) {
    StackGoal(g) && WellFormed(g) && (g.Upgraded? ==> g.name in u)
  }

  ghost predicate AllShaped(u: seq<Name>, goals: seq<Goal>) {
    forall g :: g in goals ==> Shaped(u, g)
  }

  lemma ShapedAppend(u: seq<Name>, a: seq<Goal>, b: seq<Goal>)
    requires AllShaped(u, a) && AllShaped(u, b)
    ensures AllShaped(u, a + b)
  {
  }

  lemma ShapedFive(u: seq<Name>, a: seq<Goal>, b: seq<Goal>, c: seq<Goal>, d: seq<Goal>, e: seq<Goal>)
    requires AllShaped(u, a) && AllShaped(u, b) && AllShaped(u, c) && AllShaped(u, d) && AllShaped(u, e)
    ensures AllShaped(u, a + b + c + d + e)
  {
    ShapedAppend(u, a, b);
    ShapedAppend(u, a + b, c);
    ShapedAppend(u, a + b + c, d);
    ShapedAppend(u, a + b + c + d, e);
  }

  lemma EntrySectionShape(u: seq<Name>, n: Name, rest: seq<Goal>)
    requires IsEntry(n) && AllShaped(u, rest)
    ensures AllShaped(u, [Deployed(n)] + UpgradesOf(u, n) + rest)
    ensures AllShaped(u, [Deployed(n)] + UpgradesOf(u, n))
  {
    UpgradesOfShape(u, n);
  }

  lemma CoreSectionShapes(u: seq<Name>)
    ensures AllShaped(u, NotarySection(u)) && AllShaped(u, ProofVerifierSection(u))
    ensures AllShaped(u, RegistrySection(u)) && AllShaped(u, EscrowSection(u)) && AllShaped(u, RootsSection(u))
  {
    EntrySectionShape(u, NotaryService, [NotaryTrusted, FeeCharged, RecipientSet]);
    EntrySectionShape(u, CeremonyProofVerifier, []);
    EntrySectionShape(u, IdentityRegistry, [RegistryWired]);
    EntrySectionShape(u, HandleEscrow, [EscrowBound]);
    EntrySectionShape(u, GoogleJwtRoots, [RootsWired]);
  }

  lemma PlatformSectionShape(u: seq<Name>, p: Platform)
    ensures AllShaped(u, PlatformSection(u, p))
  {
    UpgradesOfShape(u, PlatformVerifier(p));
  }

  lemma StackShape(u: seq<Name>)
    ensures AllShaped(u, StackGoals(u))
  {
    CoreSectionShapes(u);
    PlatformSectionShape(u, X);
    PlatformSectionShape(u, GitHub);
    PlatformSectionShape(u, Google);
    ShapedFive(u, NotarySection(u), ProofVerifierSection(u), RegistrySection(u), EscrowSection(u), RootsSection(u));
    ShapedFive(u,
      NotarySection(u) + ProofVerifierSection(u) + RegistrySection(u) + EscrowSection(u) + RootsSection(u),
      PlatformSection(u, X), PlatformSection(u, GitHub), PlatformSection(u, Google), ACCEPTING);
  }

  lemma {:induction false} SafeGoalsShape(cfg: NetworkConfig, i: nat)
    requires i <= |cfg.safes|
    ensures forall g :: g in SafeGoals(cfg, i) ==> (g.SafeCreated? || g.SafeHandedOver?) && i <= g.index < |cfg.safes|
    decreases |cfg.safes| - i
  {
    if i < |cfg.safes| { SafeGoalsShape(cfg, i + 1); }
  }

  lemma {:induction false} EverySafeHasGoals(cfg: NetworkConfig, i: nat, j: nat)
    requires i <= j < |cfg.safes|
    ensures SafeCreated(j) in SafeGoals(cfg, i) && SafeHandedOver(j) in SafeGoals(cfg, i)
    decreases j - i
  {
    if i < j { EverySafeHasGoals(cfg, i + 1, j); }
  }

  lemma FrontShape(u: seq<Name>)
    ensures forall g :: g in FrontGoals(u) ==> WellFormed(g) && !Ownership(g) && (g.Upgraded? ==> g.name in u)
  {
    StackShape(u);
    forall g | g in FrontGoals(u) ensures WellFormed(g) && !Ownership(g) && (g.Upgraded? ==> g.name in u) {
      assert g in INSTALL || g == FactoryOwned || g in StackGoals(u);
      if g in StackGoals(u) { assert Shaped(u, g); }
    }
  }

  lemma BackShape(cfg: NetworkConfig)
    ensures forall g :: g in BackGoals(cfg) ==> WellFormed(g) && !g.FactoryOwned? && !g.Upgraded?
  {
    SafeGoalsShape(cfg, 0);
  }

  lemma NeededIsInFront(m: Goal, u: seq<Name>)
    requires NeededBy(m)
    ensures m in FrontGoals(u)
  {
    assert m in StackGoals(u) by {
      match m {
        case CircuitDeployed(BearerLink) => assert m in PlatformSection(u, X);
        case CircuitDeployed(OidcGoogle) => assert m in PlatformSection(u, Google);
        case Deployed(NotaryService) => assert m in NotarySection(u);
        case Deployed(CeremonyProofVerifier) => assert m in ProofVerifierSection(u);
        case Deployed(IdentityRegistry) => assert m in RegistrySection(u);
        case Deployed(HandleEscrow) => assert m in EscrowSection(u);
        case Deployed(GoogleJwtRoots) => assert m in RootsSection(u);
        case Deployed(PlatformVerifier(p)) => assert m in PlatformSection(u, p);
      }
    }
  }

  lemma MemberOfEither(front: seq<Goal>, back: seq<Goal>, j: nat)
    requires j < |front + back|
    ensures if j < |front| then (front + back)[j] in front else (front + back)[j] in back
  {
  }

  lemma JoinOrdered(ctx: Ctx, front: seq<Goal>, back: seq<Goal>, w: World)
    requires forall g :: g in front ==> WellFormed(g) && !Ownership(g)
    requires forall g :: g in back ==> WellFormed(g) && !g.FactoryOwned?
    requires forall m :: NeededBy(m) ==> m in front
    ensures Ordered(front + back) && HandOnIsLast(ctx, front + back, w)
  {
    var goals := front + back;
    forall i, j | 0 <= i < j < |goals| && goals[j].FactoryOwned? ensures !Ownership(goals[i]) {
      MemberOfEither(front, back, i);
      MemberOfEither(front, back, j);
    }
    forall j, m | 0 <= j < |goals| && goals[j].OwnershipAccepted? && NeededBy(m) ensures m in goals[..j] {
      MemberOfEither(front, back, j);
      MemberOfPrefix(front, back, j, m);
    }
  }

  lemma MemberOfPrefix(front: seq<Goal>, back: seq<Goal>, j: nat, m: Goal)
    requires |front| <= j <= |front + back| && m in front
    ensures m in (front + back)[..j]
  {
    var i :| 0 <= i < |front| && front[i] == m;
    assert (front + back)[..j][i] == m;
  }

  lemma GoalsAreOrdered(ctx: Ctx, u: seq<Name>, w: World)
    ensures Ordered(Goals(ctx.cfg, u)) && HandOnIsLast(ctx, Goals(ctx.cfg, u), w)
    ensures forall g :: g in Goals(ctx.cfg, u) && g.Upgraded? ==> g.name in u
  {
    FrontShape(u);
    BackShape(ctx.cfg);
    forall m | NeededBy(m) ensures m in FrontGoals(u) { NeededIsInFront(m, u); }
    JoinOrdered(ctx, FrontGoals(u), BackGoals(ctx.cfg), w);
  }

  // ----- One run, its world and its sites -----

  function CtxOf(cfg: NetworkConfig, confirm: bool, w: World): Ctx {
    Ctx(cfg, confirm, Locate(cfg, w))
  }

  function NoUpgrades(confirm: bool): Options {
    Options([], confirm)
  }

  function Converging(cfg: NetworkConfig, confirm: bool, w: World): Outcome {
    RunAll(cfg, cfg.deployer, NoUpgrades(confirm), w)
  }

  /** Starting again anywhere inside a run without upgrades is starting from
      there with the sites the run was working with. */
  lemma StartedAgain(cfg: NetworkConfig, confirm: bool, w: World, k: nat)
    requires Valid(cfg)
    ensures var ctx := CtxOf(cfg, confirm, w);
            var goals := Goals(cfg, []);
            var cut := Interrupted(ctx, goals, w, k);
            && Converging(cfg, confirm, cut) == Run(ctx, goals, cut)
            && Interchangeable(ctx, CtxOf(cfg, confirm, cut), cut)
  {
    var ctx := CtxOf(cfg, confirm, w);
    var goals := Goals(cfg, []);
    var cut := Interrupted(ctx, goals, w, k);
    GoalsAreOrdered(ctx, [], w);
    SitesStay(ctx, goals, w, k);
    RunsAgree(ctx, CtxOf(cfg, confirm, cut), goals, cut);
  }

  // ----- Crash recovery -----

  /** A run stopped after any prefix of its transactions and started again
      succeeds, ends at the same world, and sends exactly what was left (an
      implementation deployed but not yet used is deployed again). */
  lemma CrashRecovery(cfg: NetworkConfig, confirm: bool, w: World, k: nat)
    requires Valid(cfg) && RecordsHold(cfg, w)
    requires Converging(cfg, confirm, w).ok && k <= |Converging(cfg, confirm, w).trace|
    ensures var whole := Converging(cfg, confirm, w);
            var cut := ApplyAll(cfg, whole.trace[..k], w);
            && cut.Some? && RecordsHold(cfg, cut.value)
            && var again := Converging(cfg, confirm, cut.value);
               again.ok && again.world == whole.world && again.trace == whole.trace[Resent(whole.trace, k)..]
  {
    var ctx := CtxOf(cfg, confirm, w);
    var goals := Goals(cfg, []);
    GoalsAreOrdered(ctx, [], w);
    InterruptedIsPrefix(ctx, goals, w, k);
    InterruptedKeepsRecords(ctx, goals, w, k);
    StartedAgain(cfg, confirm, w, k);
    Resume(ctx, goals, w, k);
  }

  lemma {:induction false} InterruptedKeepsRecords(ctx: Ctx, goals: seq<Goal>, w: World, k: nat)
    requires RecordsHold(ctx.cfg, w)
    ensures RecordsHold(ctx.cfg, Interrupted(ctx, goals, w, k))
    decreases |goals|
  {
    if goals != [] {
      match MoveFor(ctx, goals[0], w) {
        case Stop =>
        case Send(txs) =>
          var act := Apply(ctx.cfg, Act(ctx, goals[0], w), w);
          if act.Some? {
            ApplyKeepsRecords(ctx.cfg, Act(ctx, goals[0], w), w);
            if k >= |txs| { InterruptedKeepsRecords(ctx, goals[1..], act.value, k - |txs|); }
          }
        case _ => InterruptedKeepsRecords(ctx, goals[1..], w, k);
      }
    }
  }

  /** The chain after runs that were each cut after so many transactions. */
  function AfterCuts(cfg: NetworkConfig, confirm: bool, w: World, cuts: seq<nat>): World
    decreases |cuts|
  {
    if cuts == [] then w
    else
      var trace := Converging(cfg, confirm, w).trace;
      var cut := ApplyAll(cfg, trace[..if cuts[0] <= |trace| then cuts[0] else |trace|], w);
      if cut.None? then w else AfterCuts(cfg, confirm, cut.value, cuts[1..])
  }

  /** Any number of interruptions, anywhere, change nothing about the end. */
  lemma {:induction false} RepeatedCrashes(cfg: NetworkConfig, confirm: bool, w: World, cuts: seq<nat>)
    requires Valid(cfg) && RecordsHold(cfg, w) && Converging(cfg, confirm, w).ok
    ensures var last := Converging(cfg, confirm, AfterCuts(cfg, confirm, w, cuts));
            last.ok && last.world == Converging(cfg, confirm, w).world
    decreases |cuts|
  {
    if cuts != [] {
      var trace := Converging(cfg, confirm, w).trace;
      var k := if cuts[0] <= |trace| then cuts[0] else |trace|;
      CrashRecovery(cfg, confirm, w, k);
      RepeatedCrashes(cfg, confirm, ApplyAll(cfg, trace[..k], w).value, cuts[1..]);
    }
  }

  // ----- Idempotence -----

  /** Nothing in the file is left to do on `w`. */
  ghost predicate Settled(ctx: Ctx, w: World) {
    forall g :: g in Goals(ctx.cfg, []) ==> Met(ctx, g, w)
  }

  lemma {:induction false} MetRunIsIdle(ctx: Ctx, goals: seq<Goal>, w: World)
    requires forall g :: g in goals ==> Met(ctx, g, w)
    ensures Run(ctx, goals, w) == Idle(w)
    decreases |goals|
  {
    if goals != [] {
      assert goals[0] in goals;
      KeptRun(ctx, goals, w);
      MetRunIsIdle(ctx, goals[1..], w);
    }
  }

  /** A goal of a run that finished is met at its end, an upgrade aside. */
  lemma FinishedRunMeets(ctx: Ctx, u: seq<Name>, w: World, g: Goal)
    requires Valid(ctx.cfg) && Located(ctx) && RecordsHold(ctx.cfg, w)
    requires Run(ctx, Goals(ctx.cfg, u), w).ok && g in Goals(ctx.cfg, u) && !g.Upgraded?
    ensures Met(ctx, g, Run(ctx, Goals(ctx.cfg, u), w).world)
  {
    GoalsAreOrdered(ctx, u, w);
    FinishedIsMet(ctx, Goals(ctx.cfg, u), w, g);
  }

  lemma PlainUpgradesNothing(cfg: NetworkConfig, u: seq<Name>, g: Goal)
    requires u == [] && g in Goals(cfg, u)
    ensures !g.Upgraded?
  {
    FrontShape(u);
    BackShape(cfg);
    assert g in FrontGoals(u) || g in BackGoals(cfg);
  }

  lemma PlainIsWellFormed(cfg: NetworkConfig, u: seq<Name>, g: Goal)
    requires g in Goals(cfg, u)
    ensures WellFormed(g)
  {
    FrontShape(u);
    BackShape(cfg);
    assert g in FrontGoals(u) || g in BackGoals(cfg);
  }

  lemma FinishedIsSettled(cfg: NetworkConfig, confirm: bool, w: World)
    requires Valid(cfg) && RecordsHold(cfg, w) && Converging(cfg, confirm, w).ok
    ensures Settled(CtxOf(cfg, confirm, w), Converging(cfg, confirm, w).world)
  {
    var ctx := CtxOf(cfg, confirm, w);
    forall g | g in Goals(cfg, []) ensures Met(ctx, g, Converging(cfg, confirm, w).world) {
      PlainUpgradesNothing(cfg, [], g);
      FinishedRunMeets(ctx, [], w, g);
    }
  }

  lemma FactoryGoalsAreGoals(cfg: NetworkConfig, u: seq<Name>)
    ensures FactoryInstalled in Goals(cfg, u) && FreshDeployConfirmed in Goals(cfg, u)
  {
    assert FactoryInstalled in INSTALL && FreshDeployConfirmed in INSTALL;
    assert FactoryInstalled in FrontGoals(u) && FreshDeployConfirmed in FrontGoals(u);
  }

  lemma MetUnderAnotherFlag(ctx: Ctx, confirm: bool, g: Goal, w: World)
    requires Met(ctx, g, w) && w.factory.Some?
    ensures Met(ctx.(confirm := confirm), g, w)
  {
  }

  lemma SettledUnderAnotherFlag(ctx: Ctx, confirm: bool, w: World)
    requires Settled(ctx, w)
    ensures Settled(ctx.(confirm := confirm), w)
  {
    FactoryGoalsAreGoals(ctx.cfg, []);
    assert Met(ctx, FactoryInstalled, w);
    forall g | g in Goals(ctx.cfg, []) ensures Met(ctx.(confirm := confirm), g, w) {
      MetUnderAnotherFlag(ctx, confirm, g, w);
    }
  }

  lemma SettledAgrees(a: Ctx, b: Ctx, w: World)
    requires Interchangeable(a, b, w) && Settled(a, w)
    ensures Settled(b, w)
  {
    forall g | g in Goals(a.cfg, []) ensures Met(b, g, w) {
      assert Met(a, g, w);
      MovesAgree(a, b, g, w);
    }
  }

  /** Whoever locates the circuit verifiers at the end finds nothing left. */
  lemma EndIsSettled(cfg: NetworkConfig, confirm: bool, again: bool, w: World)
    requires Valid(cfg) && RecordsHold(cfg, w) && Converging(cfg, confirm, w).ok
    ensures var end := Converging(cfg, confirm, w).world; Settled(CtxOf(cfg, again, end), end)
  {
    var ctx := CtxOf(cfg, confirm, w);
    var end := Converging(cfg, confirm, w).world;
    var k := |Converging(cfg, confirm, w).trace|;
    FinishedIsSettled(cfg, confirm, w);
    InterruptedAtTheEnd(ctx, Goals(cfg, []), w);
    StartedAgain(cfg, confirm, w, k);
    SettledAgrees(ctx, CtxOf(cfg, confirm, end), end);
    SettledUnderAnotherFlag(CtxOf(cfg, confirm, end), again, end);
  }

  /** A second run of the same file, with or without the fresh-deploy flag,
      succeeds and sends no transaction. */
  lemma Idempotence(cfg: NetworkConfig, confirm: bool, again: bool, w: World)
    requires Valid(cfg) && RecordsHold(cfg, w) && Converging(cfg, confirm, w).ok
    ensures var end := Converging(cfg, confirm, w).world;
            Converging(cfg, again, end) == Idle(end)
  {
    var end := Converging(cfg, confirm, w).world;
    EndIsSettled(cfg, confirm, again, w);
    MetRunIsIdle(CtxOf(cfg, again, end), Goals(cfg, []), end);
  }

  // ----- The owner takes the factory between two runs -----

  lemma AcceptanceApplies(cfg: NetworkConfig, key: Address, w: World, w': World)
    requires Apply(cfg, AcceptOwnership(key), w) == Some(w')
    ensures FactoryOwnedAs(w, w', key, ZERO)
  {
  }

  lemma SettledNeedsNothing(ctx: Ctx, w: World)
    requires Settled(ctx, w)
    ensures !NeedsFactory(ctx, w)
  {
    forall m | NeededBy(m) ensures Met(ctx, m, w) {
      NeededIsInFront(m, []);
      assert m in Goals(ctx.cfg, []);
    }
    AllMetNeedsNothing(ctx, w);
  }

  lemma AcceptanceSettles(ctx: Ctx, w: World, w': World)
    requires Settled(ctx, w) && FactoryOwnedAs(w, w', OperationalOwner(ctx.cfg), ZERO)
    ensures Settled(ctx, w')
  {
    SettledNeedsNothing(ctx, w);
    forall g | g in Goals(ctx.cfg, []) ensures Met(ctx, g, w') {
      assert Met(ctx, g, w);
      PlainIsWellFormed(ctx.cfg, [], g);
      if StackGoal(g) { StackFrame(ctx, g, w, w'); } else { HandOnKeeps(ctx, g, w, w'); }
    }
  }

  /** The declared owner may take the factory once a run has offered it: the
      next run still has nothing to send. */
  lemma QuietAfterAcceptance(cfg: NetworkConfig, confirm: bool, again: bool, w: World, next: World)
    requires Valid(cfg) && RecordsHold(cfg, w) && Converging(cfg, confirm, w).ok
    requires Apply(cfg, AcceptOwnership(OperationalOwner(cfg)), Converging(cfg, confirm, w).world) == Some(next)
    ensures Converging(cfg, again, next) == Idle(next)
  {
    var end := Converging(cfg, confirm, w).world;
    EndIsSettled(cfg, confirm, again, w);
    AcceptanceApplies(cfg, OperationalOwner(cfg), end, next);
    AcceptanceSettles(CtxOf(cfg, again, end), end, next);
    assert CtxOf(cfg, again, end) == CtxOf(cfg, again, next);
    MetRunIsIdle(CtxOf(cfg, again, next), Goals(cfg, []), next);
  }
}
