/** What the chain holds once a run has finished, upgrades or not. */
module GoalState {
  import opened Prelude
  import opened OwnerSets
  import opened OwnerManager
  import opened Config
  import opened Worlds
  import opened Converge
  import opened Stability
  import opened Interruption
  import opened Recovery
  import opened Sites
  import opened Convergence

  // ----- The state, in the file's terms -----

  predicate NotaryConverged(cfg: NetworkConfig, w: World) {
    && NotaryService in w.proxies
    && cfg.notary in SlotsOf(w, NotaryService).trusted
    && SlotsOf(w, NotaryService).fee == cfg.fee
    && (cfg.feeRecipient.Some? ==> SlotsOf(w, NotaryService).recipient == cfg.feeRecipient.value)
  }

  predicate WiringConverged(cfg: NetworkConfig, w: World) {
    && IdentityRegistry in w.proxies && SlotsOf(w, IdentityRegistry).pointer == cfg.contracts.proofVerifier
    && HandleEscrow in w.proxies && SlotsOf(w, HandleEscrow).pointer == cfg.contracts.identityRegistry
    && GoogleJwtRoots in w.proxies && SlotsOf(w, GoogleJwtRoots).pointer == cfg.contracts.notaryService
    && PlatformVerifier(Google) in w.proxies
    && SlotsOf(w, PlatformVerifier(Google)).roots == cfg.contracts.jwtRoots
  }

  function DeclaredVerifier(cfg: NetworkConfig, p: Platform): Address {
    match p
    case X => cfg.contracts.xVerifier
    case GitHub => cfg.contracts.githubVerifier
    case Google => cfg.contracts.googleVerifier
  }

  /** The platform verifies: on code, registered, and accepted. */
  predicate PlatformConverged(cfg: NetworkConfig, w: World, p: Platform) {
    && PlatformVerifier(p) in w.proxies
    && SlotsOf(w, PlatformVerifier(p)).honk in w.code
    && CeremonyProofVerifier in w.proxies
    && p in SlotsOf(w, CeremonyProofVerifier).versions
    && SlotsOf(w, CeremonyProofVerifier).versions[p] == DeclaredVerifier(cfg, p)
    && Answers(w, IdentityRegistry, AcceptsBindings)
  }

  /** A factory still the deployer's is offered to the owner the file declares,
      if it declares another, and on a dev chain it is never just offered. */
  predicate OwnershipConverged(cfg: NetworkConfig, w: World) {
    && w.factory.Some?
    && (w.factory.value.owner == cfg.deployer && cfg.owner.Some? && cfg.owner.value != cfg.deployer ==>
          w.factory.value.pending == cfg.owner.value && !w.dev)
  }

  /** As many owners as declared, each of them declared, under the declared
      threshold; or a Safe the deployer cannot sign for alone. */
  predicate SafeConverged(cfg: NetworkConfig, w: World, decl: SafeDecl) {
    && decl.address.Some? && decl.address.value in w.safes
    && var on := OwnersOf(w.safes[decl.address.value]);
       || (on.threshold == decl.threshold && |on.owners| == |decl.owners| && forall o | o in on.owners :: o in decl.owners)
       || on.threshold != 1 || cfg.deployer !in on.owners
  }

  ghost predicate Converged(cfg: NetworkConfig, w: World) {
    && NotaryConverged(cfg, w)
    && WiringConverged(cfg, w)
    && (forall p :: PlatformConverged(cfg, w, p))
    && OwnershipConverged(cfg, w)
    && (forall i :: 0 <= i < |cfg.safes| ==> SafeConverged(cfg, w, cfg.safes[i]))
    && (cfg.safes != [] ==> HoldsRelease(w))
  }

  // ----- Every goal without an upgrade is a goal of every run -----

  lemma CoreGoalsAreGoals(g: Goal, u: seq<Name>)
    requires g in StackGoals([])
    ensures g in StackGoals(u)
  {
    if g in NotarySection([]) { assert g in NotarySection(u); }
    if g in ProofVerifierSection([]) { assert g in ProofVerifierSection(u); }
    if g in RegistrySection([]) { assert g in RegistrySection(u); }
    if g in EscrowSection([]) { assert g in EscrowSection(u); }
    if g in RootsSection([]) { assert g in RootsSection(u); }
    if g in PlatformSection([], X) { assert g in PlatformSection(u, X); }
    if g in PlatformSection([], GitHub) { assert g in PlatformSection(u, GitHub); }
    if g in PlatformSection([], Google) { assert g in PlatformSection(u, Google); }
  }

  lemma PlainGoalsAreGoals(cfg: NetworkConfig, u: seq<Name>, g: Goal)
    requires g in Goals(cfg, [])
    ensures g in Goals(cfg, u) && !g.Upgraded?
  {
    FrontShape([]);
    BackShape(cfg);
    assert g in FrontGoals([]) || g in BackGoals(cfg);
    if g in StackGoals([]) { CoreGoalsAreGoals(g, u); }
  }

  /** At the end of a finished run every goal of the file is met. */
  lemma FinishedMeetsTheFile(cfg: NetworkConfig, opts: Options, w: World, g: Goal)
    requires Valid(cfg) && RecordsHold(cfg, w)
    requires RunAll(cfg, cfg.deployer, opts, w).ok && g in Goals(cfg, [])
    ensures Met(CtxOf(cfg, opts.confirmFreshDeploy, w), g, RunAll(cfg, cfg.deployer, opts, w).world)
  {
    PlainGoalsAreGoals(cfg, opts.upgrades, g);
    PlainUpgradesNothing(cfg, [], g);
    FinishedRunMeets(CtxOf(cfg, opts.confirmFreshDeploy, w), opts.upgrades, w, g);
  }

  lemma StackGoalsAreGoals(cfg: NetworkConfig, u: seq<Name>, section: seq<Goal>, g: Goal)
    requires g in section
    requires section == NotarySection(u) || section == RegistrySection(u) || section == EscrowSection(u)
      || section == RootsSection(u) || section == PlatformSection(u, X) || section == PlatformSection(u, GitHub)
      || section == PlatformSection(u, Google) || section == ACCEPTING
    ensures g in Goals(cfg, u)
  {
    assert g in StackGoals(u);
    assert g in FrontGoals(u);
  }

  lemma SettledMeets(ctx: Ctx, w: World, section: seq<Goal>, g: Goal)
    requires Settled(ctx, w) && g in section
    requires section == NotarySection([]) || section == RegistrySection([]) || section == EscrowSection([])
      || section == RootsSection([]) || section == PlatformSection([], X) || section == PlatformSection([], GitHub)
      || section == PlatformSection([], Google) || section == ACCEPTING
    ensures Met(ctx, g, w)
  {
    StackGoalsAreGoals(ctx.cfg, [], section, g);
  }

  lemma NotaryMeans(ctx: Ctx, w: World)
    requires Met(ctx, NotaryTrusted, w) && Met(ctx, FeeCharged, w) && Met(ctx, RecipientSet, w)
    ensures NotaryConverged(ctx.cfg, w)
  {
  }

  lemma NotaryGoalState(ctx: Ctx, w: World)
    requires Settled(ctx, w)
    ensures NotaryConverged(ctx.cfg, w)
  {
    SettledMeets(ctx, w, NotarySection([]), NotaryTrusted);
    SettledMeets(ctx, w, NotarySection([]), FeeCharged);
    SettledMeets(ctx, w, NotarySection([]), RecipientSet);
    NotaryMeans(ctx, w);
  }

  lemma WiringMeans(ctx: Ctx, w: World)
    requires Met(ctx, RegistryWired, w) && Met(ctx, EscrowBound, w)
    requires Met(ctx, RootsWired, w) && Met(ctx, GoogleRootsRead, w)
    ensures WiringConverged(ctx.cfg, w)
  {
  }

  lemma WiringGoalState(ctx: Ctx, w: World)
    requires Settled(ctx, w)
    ensures WiringConverged(ctx.cfg, w)
  {
    SettledMeets(ctx, w, RegistrySection([]), RegistryWired);
    SettledMeets(ctx, w, EscrowSection([]), EscrowBound);
    SettledMeets(ctx, w, RootsSection([]), RootsWired);
    SettledMeets(ctx, w, PlatformSection([], Google), GoogleRootsRead);
    WiringMeans(ctx, w);
  }

  lemma PlatformGoals(ctx: Ctx, w: World, p: Platform)
    requires Settled(ctx, w)
    ensures Met(ctx, CircuitDeployed(CircuitOf(p)), w) && Met(ctx, Deployed(PlatformVerifier(p)), w)
    ensures Met(ctx, TrustRootsSet(p), w) && Met(ctx, Registered(p), w) && Met(ctx, Accepting(p), w)
  {
    SettledMeets(ctx, w, PlatformSection([], p), CircuitDeployed(CircuitOf(p)));
    SettledMeets(ctx, w, PlatformSection([], p), Deployed(PlatformVerifier(p)));
    SettledMeets(ctx, w, PlatformSection([], p), TrustRootsSet(p));
    SettledMeets(ctx, w, PlatformSection([], p), Registered(p));
    SettledMeets(ctx, w, ACCEPTING, Accepting(p));
  }

  /** Sites that hold code: a named one once deployed, one in use all along. */
  predicate SitesHoldCode(ctx: Ctx, w: World) {
    && (ctx.sites.bearerLink.InUse? ==> ctx.sites.bearerLink.address in w.code)
    && (ctx.sites.oidcGoogle.InUse? ==> ctx.sites.oidcGoogle.address in w.code)
  }

  lemma PlatformGoalState(ctx: Ctx, w: World, p: Platform)
    requires Settled(ctx, w) && SitesHoldCode(ctx, w)
    ensures PlatformConverged(ctx.cfg, w, p)
  {
    PlatformGoals(ctx, w, p);
  }

  lemma BackMeets(ctx: Ctx, w: World, g: Goal)
    requires Settled(ctx, w) && g in BackGoals(ctx.cfg)
    ensures Met(ctx, g, w)
  {
  }

  lemma OwnershipMeans(ctx: Ctx, w: World)
    requires Met(ctx, OwnershipOffered, w) && Met(ctx, OwnershipAccepted, w)
    ensures OwnershipConverged(ctx.cfg, w)
  {
  }

  lemma SafeMeans(ctx: Ctx, w: World, i: nat)
    requires Valid(ctx.cfg) && i < |ctx.cfg.safes| && Met(ctx, SafeHandedOver(i), w)
    ensures SafeConverged(ctx.cfg, w, ctx.cfg.safes[i])
  {
    var decl := ctx.cfg.safes[i];
    assert AdmittedSafe(ctx.cfg, decl);
    AdmittedIsUsable(decl, ctx.cfg.predicted[decl.name]);
  }

  lemma OwnershipGoalState(ctx: Ctx, w: World)
    requires Settled(ctx, w)
    ensures OwnershipConverged(ctx.cfg, w)
    ensures ctx.cfg.safes != [] ==> HoldsRelease(w)
  {
    assert OwnershipOffered in OWNERSHIP && OwnershipAccepted in OWNERSHIP;
    BackMeets(ctx, w, OwnershipOffered);
    BackMeets(ctx, w, OwnershipAccepted);
    BackMeets(ctx, w, SafeReleaseChecked);
    OwnershipMeans(ctx, w);
  }

  lemma SafeGoalState(ctx: Ctx, w: World, i: nat)
    requires Valid(ctx.cfg) && Settled(ctx, w) && i < |ctx.cfg.safes|
    ensures SafeConverged(ctx.cfg, w, ctx.cfg.safes[i])
  {
    EverySafeHasGoals(ctx.cfg, 0, i);
    BackMeets(ctx, w, SafeHandedOver(i));
    SafeMeans(ctx, w, i);
  }

  /** Whoever signs, a run that succeeds is the deployer's and leaves the chain
      as declared; any other signer's does nothing. */
  lemma AnySignerConverges(cfg: NetworkConfig, sender: Address, opts: Options, w: World)
    requires Valid(cfg) && RecordsHold(cfg, w)
    ensures RunAll(cfg, sender, opts, w).ok ==>
              sender == cfg.deployer && Converged(cfg, RunAll(cfg, sender, opts, w).world)
    ensures sender != cfg.deployer ==> RunAll(cfg, sender, opts, w) == Outcome(false, w, [], [], [])
  {
    if RunAll(cfg, sender, opts, w).ok { FinishedIsConverged(cfg, opts, w); }
  }

  lemma {:induction false} CodeGrows(ctx: Ctx, goals: seq<Goal>, w: World)
    ensures var end := Run(ctx, goals, w).world;
            forall a :: a in w.code ==> a in end.code && end.code[a] == w.code[a]
    decreases |goals|
  {
    if goals != [] {
      var first := Perform(ctx, goals[0], w);
      if MoveFor(ctx, goals[0], w).Send? {
        PerformedWorld(ctx, goals[0], w);
        if Apply(ctx.cfg, Act(ctx, goals[0], w), w).Some? {
          CodeStays(ctx.cfg, Act(ctx, goals[0], w), w, Apply(ctx.cfg, Act(ctx, goals[0], w), w).value);
        }
      }
      if first.ok { CodeGrows(ctx, goals[1..], first.world); }
    }
  }

  /** Finished or not, a goal leaves the world or applies its transaction. */
  lemma PerformedWorld(ctx: Ctx, g: Goal, w: World)
    requires MoveFor(ctx, g, w).Send?
    ensures var act := Apply(ctx.cfg, Act(ctx, g, w), w);
            Perform(ctx, g, w).world == if act.Some? then act.value else w
  {
    SendShape(ctx, g, w);
    SendOne(ctx.cfg, Act(ctx, g, w), w);
    if g.Deployed? || g.Upgraded? {
      SendTwo(ctx.cfg, g.name, Act(ctx, g, w), w);
    }
  }

  /** Every goal of the file is met at the end of a finished run, and no later
      section of it undid an earlier one. */
  lemma FinishedSettles(cfg: NetworkConfig, opts: Options, w: World)
    requires Valid(cfg) && RecordsHold(cfg, w) && RunAll(cfg, cfg.deployer, opts, w).ok
    ensures Settled(CtxOf(cfg, opts.confirmFreshDeploy, w), RunAll(cfg, cfg.deployer, opts, w).world)
    ensures SitesHoldCode(CtxOf(cfg, opts.confirmFreshDeploy, w), RunAll(cfg, cfg.deployer, opts, w).world)
  {
    var ctx := CtxOf(cfg, opts.confirmFreshDeploy, w);
    forall g | g in Goals(cfg, []) ensures Met(ctx, g, RunAll(cfg, cfg.deployer, opts, w).world) {
      FinishedMeetsTheFile(cfg, opts, w, g);
    }
    CodeGrows(ctx, Goals(cfg, opts.upgrades), w);
  }

  /** A finished run, with or without upgrades, leaves the chain as declared. */
  lemma FinishedIsConverged(cfg: NetworkConfig, opts: Options, w: World)
    requires Valid(cfg) && RecordsHold(cfg, w) && RunAll(cfg, cfg.deployer, opts, w).ok
    ensures Converged(cfg, RunAll(cfg, cfg.deployer, opts, w).world)
  {
    var ctx := CtxOf(cfg, opts.confirmFreshDeploy, w);
    var end := RunAll(cfg, cfg.deployer, opts, w).world;
    FinishedSettles(cfg, opts, w);
    NotaryGoalState(ctx, end);
    WiringGoalState(ctx, end);
    OwnershipGoalState(ctx, end);
    forall p { PlatformGoalState(ctx, end, p); }
    forall i | 0 <= i < |cfg.safes| { SafeGoalState(ctx, end, i); }
  }

  // ----- Vendored code, and a quiet run after upgrades -----

  /** Nothing but the embedded verifier sits at the name of `c`. */
  predicate NameHoldsVendored(cfg: NetworkConfig, w: World, c: Circuit) {
    var code := CodeAt(w, At(cfg, OwnVerifier(cfg, c)));
    code.None? || code == Some(Vendored(cfg, c))
  }

  lemma NameStaysVendored(cfg: NetworkConfig, c: Circuit, tx: Tx, w: World, w': World)
    requires At(cfg, OwnVerifier(cfg, BearerLink)) != At(cfg, OwnVerifier(cfg, OidcGoogle))
    requires NameHoldsVendored(cfg, w, c) && Apply(cfg, tx, w) == Some(w')
    ensures NameHoldsVendored(cfg, w', c)
  {
  }

  lemma {:induction false} NameHoldsVendoredThroughout(ctx: Ctx, c: Circuit, goals: seq<Goal>, w: World)
    requires Valid(ctx.cfg) && NameHoldsVendored(ctx.cfg, w, c)
    ensures NameHoldsVendored(ctx.cfg, Run(ctx, goals, w).world, c)
    decreases |goals|
  {
    if goals != [] {
      var first := Perform(ctx, goals[0], w);
      if MoveFor(ctx, goals[0], w).Send? {
        PerformedWorld(ctx, goals[0], w);
        if Apply(ctx.cfg, Act(ctx, goals[0], w), w).Some? {
          NameStaysVendored(ctx.cfg, c, Act(ctx, goals[0], w), w, first.world);
        }
      }
      if first.ok { NameHoldsVendoredThroughout(ctx, c, goals[1..], first.world); }
    }
  }

  /** Code a run found at a site in use is there, still vendored, at its end. */
  predicate SitesStillVendored(ctx: Ctx, w: World) {
    && (ctx.sites.bearerLink.InUse? ==>
          CodeAt(w, ctx.sites.bearerLink.address) == Some(Vendored(ctx.cfg, BearerLink)))
    && (ctx.sites.oidcGoogle.InUse? ==>
          CodeAt(w, ctx.sites.oidcGoogle.address) == Some(Vendored(ctx.cfg, OidcGoogle)))
  }

  lemma FinishedSitesVendored(cfg: NetworkConfig, opts: Options, w: World)
    ensures SitesStillVendored(
      CtxOf(cfg, opts.confirmFreshDeploy, w),
      Run(CtxOf(cfg, opts.confirmFreshDeploy, w), Goals(cfg, opts.upgrades), w).world)
  {
    CodeGrows(CtxOf(cfg, opts.confirmFreshDeploy, w), Goals(cfg, opts.upgrades), w);
  }

  lemma VendoredWhereNamesAre(ctx: Ctx, w: World, p: Platform)
    requires Located(ctx) && Settled(ctx, w) && SitesStillVendored(ctx, w)
    requires NameHoldsVendored(ctx.cfg, w, CircuitOf(p))
    ensures UsesVendored(ctx.cfg, w, p)
  {
    PlatformGoals(ctx, w, p);
  }

  /** Where the release's names hold only its own code, a finished run leaves
      every platform on the vendored verifier of its circuit. */
  lemma FinishedIsVendored(cfg: NetworkConfig, opts: Options, w: World)
    requires Valid(cfg) && RecordsHold(cfg, w) && RunAll(cfg, cfg.deployer, opts, w).ok
    requires NameHoldsVendored(cfg, w, BearerLink) && NameHoldsVendored(cfg, w, OidcGoogle)
    ensures forall p :: UsesVendored(cfg, RunAll(cfg, cfg.deployer, opts, w).world, p)
  {
    var ctx := CtxOf(cfg, opts.confirmFreshDeploy, w);
    var end := RunAll(cfg, cfg.deployer, opts, w).world;
    FinishedSettles(cfg, opts, w);
    FinishedSitesVendored(cfg, opts, w);
    NameHoldsVendoredThroughout(ctx, BearerLink, Goals(cfg, opts.upgrades), w);
    NameHoldsVendoredThroughout(ctx, OidcGoogle, Goals(cfg, opts.upgrades), w);
    forall p ensures UsesVendored(cfg, end, p) { VendoredWhereNamesAre(ctx, end, p); }
  }

  /** The platforms of one circuit agree on whether they use its vendored code. */
  predicate CircuitsAgree(cfg: NetworkConfig, w: World) {
    UsesVendored(cfg, w, X) == UsesVendored(cfg, w, GitHub)
  }

  /** Relocating after a settled run: each circuit is used vendored by all its
      platforms, or its site has not moved. */
  lemma RelocatedSite(ctx: Ctx, w: World, c: Circuit)
    requires Located(ctx) && Settled(ctx, w) && SitesStillVendored(ctx, w) && CircuitsAgree(ctx.cfg, w)
    ensures (forall p :: CircuitOf(p) == c ==> UsesVendored(ctx.cfg, w, p))
            || SiteOf(ctx.cfg, w, c) == ctx.sites.Of(c)
  {
    PlatformGoals(ctx, w, X);
    PlatformGoals(ctx, w, GitHub);
    PlatformGoals(ctx, w, Google);
  }

  lemma MetWhereRelocated(ctx: Ctx, g: Goal, w: World)
    requires StackGoal(g) && Met(ctx, g, w) && WellFormed(g)
    requires forall c ::
      ((forall p :: CircuitOf(p) == c ==> UsesVendored(ctx.cfg, w, p)) || SiteOf(ctx.cfg, w, c) == ctx.sites.Of(c))
    ensures Met(LocatedAgain(ctx, w), g, w)
  {
    match g {
      case CircuitDeployed(c) =>
        assert CircuitOf(X) == BearerLink && CircuitOf(GitHub) == BearerLink && CircuitOf(Google) == OidcGoogle;
      case TrustRootsSet(p) =>
        assert ctx.CircuitAt(p) == ctx.sites.Of(CircuitOf(p)).address;
      case _ =>
    }
  }

  lemma ChainGoalsMetWhereRelocated(ctx: Ctx, g: Goal, w: World)
    requires !StackGoal(g) && Met(ctx, g, w)
    requires g.FactoryOwned? ==> !NeedsFactory(LocatedAgain(ctx, w), w)
    ensures Met(LocatedAgain(ctx, w), g, w)
  {
  }

  lemma AgreementSettles(ctx: Ctx, w: World)
    requires Located(ctx) && Settled(ctx, w) && SitesStillVendored(ctx, w) && CircuitsAgree(ctx.cfg, w)
    ensures Settled(LocatedAgain(ctx, w), w)
  {
    NothingNeededWhereRelocated(ctx, w);
    forall g | g in Goals(ctx.cfg, []) ensures Met(LocatedAgain(ctx, w), g, w) {
      PlainIsWellFormed(ctx.cfg, [], g);
      if StackGoal(g) { StackGoalSettles(ctx, g, w); } else { ChainGoalsMetWhereRelocated(ctx, g, w); }
    }
  }

  lemma StackGoalSettles(ctx: Ctx, g: Goal, w: World)
    requires Located(ctx) && Settled(ctx, w) && SitesStillVendored(ctx, w) && CircuitsAgree(ctx.cfg, w)
    requires StackGoal(g) && WellFormed(g) && Met(ctx, g, w)
    ensures Met(LocatedAgain(ctx, w), g, w)
  {
    RelocatedSite(ctx, w, BearerLink);
    RelocatedSite(ctx, w, OidcGoogle);
    MetWhereRelocated(ctx, g, w);
  }

  lemma NothingNeededWhereRelocated(ctx: Ctx, w: World)
    requires Located(ctx) && Settled(ctx, w) && SitesStillVendored(ctx, w) && CircuitsAgree(ctx.cfg, w)
    ensures !NeedsFactory(LocatedAgain(ctx, w), w)
  {
    forall m | NeededBy(m) ensures Met(LocatedAgain(ctx, w), m, w) {
      NeededIsInFront(m, []);
      assert m in Goals(ctx.cfg, []);
      StackGoalSettles(ctx, m, w);
    }
    AllMetNeedsNothing(LocatedAgain(ctx, w), w);
  }

  lemma {:induction false} IdleMeetsAll(ctx: Ctx, goals: seq<Goal>, w: World, g: Goal)
    requires RecordsHold(ctx.cfg, w) && Located(ctx) && (forall h :: h in goals ==> WellFormed(h))
    requires Run(ctx, goals, w) == Idle(w) && g in goals
    ensures Met(ctx, g, w)
    decreases |goals|
  {
    assert goals[0] in goals;
    NeverReused(ctx, goals[0], w);
    if MoveFor(ctx, goals[0], w).Send? { SentIsNotIdle(ctx, goals, w); }
    KeptRun(ctx, goals, w);
    if g != goals[0] {
      assert forall h :: h in goals[1..] ==> h in goals;
      IdleMeetsAll(ctx, goals[1..], w, g);
    }
  }

  lemma SentIsNotIdle(ctx: Ctx, goals: seq<Goal>, w: World)
    requires goals != [] && MoveFor(ctx, goals[0], w).Send?
    ensures Run(ctx, goals, w) != Idle(w)
  {
    SendShape(ctx, goals[0], w);
    PerformSends(ctx, goals[0], w);
    if Perform(ctx, goals[0], w).ok { RunAfterSend(ctx, goals, w); }
  }

  lemma DisagreementIsUnmet(ctx: Ctx, w: World)
    requires Located(ctx) && Settled(ctx, w) && SitesStillVendored(ctx, w) && !CircuitsAgree(ctx.cfg, w)
    ensures !Met(LocatedAgain(ctx, w), TrustRootsSet(if UsesVendored(ctx.cfg, w, X) then GitHub else X), w)
  {
    PlatformGoals(ctx, w, X);
    PlatformGoals(ctx, w, GitHub);
  }

  /** After a run the next plain run is quiet exactly when X and GitHub agree on
      using the vendored code of their shared circuit. */
  lemma QuietWhereCircuitsAgree(cfg: NetworkConfig, opts: Options, again: bool, w: World)
    requires Valid(cfg) && RecordsHold(cfg, w) && RunAll(cfg, cfg.deployer, opts, w).ok
    ensures var end := RunAll(cfg, cfg.deployer, opts, w).world;
            Converging(cfg, again, end) == Idle(end) <==> CircuitsAgree(cfg, end)
  {
    var ctx := CtxOf(cfg, opts.confirmFreshDeploy, w);
    var goals := Goals(cfg, opts.upgrades);
    var end := RunAll(cfg, cfg.deployer, opts, w).world;
    FinishedSettles(cfg, opts, w);
    FinishedSitesVendored(cfg, opts, w);
    if CircuitsAgree(cfg, end) {
      AgreementSettles(ctx, end);
      SettledUnderAnotherFlag(LocatedAgain(ctx, end), again, end);
      MetRunIsIdle(CtxOf(cfg, again, end), Goals(cfg, []), end);
    } else {
      RunKeepsRecords(ctx, goals, w);
      DisagreementUnsettles(ctx, again, end);
    }
  }

  lemma DisagreementUnsettles(ctx: Ctx, again: bool, end: World)
    requires RecordsHold(ctx.cfg, end)
    requires Located(ctx) && Settled(ctx, end) && SitesStillVendored(ctx, end) && !CircuitsAgree(ctx.cfg, end)
    ensures Converging(ctx.cfg, again, end) != Idle(end)
  {
    DisagreementIsUnmet(ctx, end);
    var g := TrustRootsSet(if UsesVendored(ctx.cfg, end, X) then GitHub else X);
    var b := CtxOf(ctx.cfg, again, end);
    TrustRootsUnderAnotherFlag(LocatedAgain(ctx, end), b, g.platform, end);
    assert g in PlatformSection([], g.platform);
    StackGoalsAreGoals(ctx.cfg, [], PlatformSection([], g.platform), g);
    GoalsAreOrdered(b, [], end);
    if Run(b, Goals(ctx.cfg, []), end) == Idle(end) {
      IdleMeetsAll(b, Goals(ctx.cfg, []), end, g);
    }
  }

  lemma TrustRootsUnderAnotherFlag(a: Ctx, b: Ctx, p: Platform, w: World)
    requires a.cfg == b.cfg && a.sites == b.sites
    ensures MoveFor(a, TrustRootsSet(p), w) == MoveFor(b, TrustRootsSet(p), w)
  {
  }

  lemma {:induction false} RunKeepsRecords(ctx: Ctx, goals: seq<Goal>, w: World)
    requires RecordsHold(ctx.cfg, w)
    ensures RecordsHold(ctx.cfg, Run(ctx, goals, w).world)
    decreases |goals|
  {
    if goals != [] {
      var first := Perform(ctx, goals[0], w);
      if MoveFor(ctx, goals[0], w).Send? {
        PerformedWorld(ctx, goals[0], w);
        if Apply(ctx.cfg, Act(ctx, goals[0], w), w).Some? {
          ApplyKeepsRecords(ctx.cfg, Act(ctx, goals[0], w), w);
        }
      }
      if first.ok { RunKeepsRecords(ctx, goals[1..], first.world); }
    }
  }

  // ----- Told before the run -----

  /** The verifier a platform points at holds the vendored code, whether or not
      the proxy can be asked for it. */
  predicate Holds(cfg: NetworkConfig, w: World, p: Platform) {
    && PlatformVerifier(p) in w.proxies
    && CodeAt(w, SlotsOf(w, PlatformVerifier(p)).honk) == Some(Vendored(cfg, CircuitOf(p)))
  }

  /** No verifier of the circuit X and GitHub share can be located, and the name
      a new one would get holds foreign code. */
  predicate NameIsTaken(cfg: NetworkConfig, w: World) {
    SiteOf(cfg, w, BearerLink).Named? && !NameHoldsVendored(cfg, w, BearerLink)
  }

  /** What keeps a platform of the shared circuit where it is. */
  predicate Stuck(ctx: Ctx, w: World) {
    ctx.sites.bearerLink.address in w.code
    && w.code[ctx.sites.bearerLink.address] != Vendored(ctx.cfg, BearerLink)
  }

  /** With foreign code at the located address neither platform is deployed or
      rotated. */
  lemma NothingRotates(ctx: Ctx, p: Platform, g: Goal, w: World)
    requires Stuck(ctx, w) && CircuitOf(p) == BearerLink && MoveFor(ctx, g, w).Send?
    ensures var tx := Act(ctx, g, w);
            && (tx.DeployProxy? ==> tx.name != PlatformVerifier(p))
            && (tx.SetOn? && tx.name == PlatformVerifier(p) ==> !tx.change.VerifyWith?)
  {
  }

  lemma SetterLeavesPointer(cfg: NetworkConfig, n: Name, m: Name, change: Change, w: World, w': World)
    requires Apply(cfg, SetOn(m, change), w) == Some(w') && (m == n ==> !change.VerifyWith?)
    ensures n in w'.proxies <==> n in w.proxies
    ensures n in w.proxies ==> w'.proxies[n].slots.honk == w.proxies[n].slots.honk
  {
  }

  lemma PointerStays(cfg: NetworkConfig, n: Name, tx: Tx, w: World, w': World)
    requires Apply(cfg, tx, w) == Some(w')
    requires tx.DeployProxy? ==> tx.name != n
    requires tx.SetOn? && tx.name == n ==> !tx.change.VerifyWith?
    ensures n in w'.proxies <==> n in w.proxies
    ensures n in w.proxies ==> w'.proxies[n].slots.honk == w.proxies[n].slots.honk
  {
    match tx {
      case SetOn(m, change) => SetterLeavesPointer(cfg, n, m, change, w, w');
      case DeployProxy(_, _) =>
      case Upgrade(_) =>
      case _ => assert w'.proxies == w.proxies;
    }
  }

  /** The only code a run adds is a circuit's own, under its name. */
  lemma NewCode(cfg: NetworkConfig, tx: Tx, w: World, w': World, a: Address)
    requires Apply(cfg, tx, w) == Some(w') && a !in w.code && a in w'.code
    ensures tx.DeployCircuit? && a == At(cfg, OwnVerifier(cfg, tx.circuit)) && w'.code[a] == Vendored(cfg, tx.circuit)
  {
  }

  lemma HoldsStays(ctx: Ctx, p: Platform, g: Goal, w: World, w': World)
    requires Located(ctx) && ctx.sites.bearerLink.Named? && Stuck(ctx, w) && CircuitOf(p) == BearerLink
    requires MoveFor(ctx, g, w).Send? && Apply(ctx.cfg, Act(ctx, g, w), w) == Some(w')
    ensures Stuck(ctx, w') && (Holds(ctx.cfg, w', p) <==> Holds(ctx.cfg, w, p))
  {
    var tx, n := Act(ctx, g, w), PlatformVerifier(p);
    NothingRotates(ctx, p, g, w);
    PointerStays(ctx.cfg, n, tx, w, w');
    CodeStays(ctx.cfg, tx, w, w');
    if n in w.proxies && w.proxies[n].slots.honk !in w.code && w.proxies[n].slots.honk in w'.code {
      NewCode(ctx.cfg, tx, w, w', w.proxies[n].slots.honk);
    }
  }

  lemma {:induction false} HoldsThroughout(ctx: Ctx, p: Platform, goals: seq<Goal>, w: World)
    requires Located(ctx) && ctx.sites.bearerLink.Named? && Stuck(ctx, w) && CircuitOf(p) == BearerLink
    ensures Holds(ctx.cfg, Run(ctx, goals, w).world, p) <==> Holds(ctx.cfg, w, p)
    decreases |goals|
  {
    if goals != [] {
      var first := Perform(ctx, goals[0], w);
      if MoveFor(ctx, goals[0], w).Send? {
        PerformedWorld(ctx, goals[0], w);
        if Apply(ctx.cfg, Act(ctx, goals[0], w), w).Some? { HoldsStays(ctx, p, goals[0], w, first.world); }
      }
      if first.ok { HoldsThroughout(ctx, p, goals[1..], first.world); }
    }
  }

  /** On a settled chain every platform can be asked, so holding is using. */
  lemma SettledReads(ctx: Ctx, w: World, p: Platform)
    requires Settled(ctx, w)
    ensures Holds(ctx.cfg, w, p) <==> UsesVendored(ctx.cfg, w, p)
  {
    PlatformGoals(ctx, w, p);
  }

  lemma InUseAgree(ctx: Ctx, w: World, p: Platform)
    requires Settled(ctx, w) && SitesStillVendored(ctx, w)
    requires CircuitOf(p) == BearerLink && ctx.sites.bearerLink.InUse?
    ensures UsesVendored(ctx.cfg, w, p)
  {
    PlatformGoals(ctx, w, p);
  }

  /** Whether X and GitHub will agree can be told from the chain a run starts
      on. */
  lemma AgreementIsForeseen(cfg: NetworkConfig, opts: Options, w: World)
    requires Valid(cfg) && RecordsHold(cfg, w) && RunAll(cfg, cfg.deployer, opts, w).ok
    ensures CircuitsAgree(cfg, RunAll(cfg, cfg.deployer, opts, w).world) <==>
            !(NameIsTaken(cfg, w) && Holds(cfg, w, X) != Holds(cfg, w, GitHub))
  {
    var ctx, goals := CtxOf(cfg, opts.confirmFreshDeploy, w), Goals(cfg, opts.upgrades);
    var end := RunAll(cfg, cfg.deployer, opts, w).world;
    FinishedSettles(cfg, opts, w);
    FinishedSitesVendored(cfg, opts, w);
    if NameIsTaken(cfg, w) {
      HoldsThroughout(ctx, X, goals, w);
      HoldsThroughout(ctx, GitHub, goals, w);
      SettledReads(ctx, end, X);
      SettledReads(ctx, end, GitHub);
    } else if ctx.sites.bearerLink.InUse? {
      InUseAgree(ctx, end, X);
      InUseAgree(ctx, end, GitHub);
    } else {
      NameHoldsVendoredThroughout(ctx, BearerLink, goals, w);
      VendoredWhereNamesAre(ctx, end, X);
      VendoredWhereNamesAre(ctx, end, GitHub);
    }
  }

  /** After any run that succeeds, upgrades or not, the next plain run is quiet
      exactly when the chain it started on did not have, at the name of the
      circuit X and GitHub share, foreign code while no vendored verifier could
      be located and just one of the two pointed at one. Then the one whose
      verifier an upgrade made readable keeps it, the other stays on the foreign
      code it points at, and the next run rotates it. */
  lemma QuietAfterUpgrades(cfg: NetworkConfig, opts: Options, again: bool, w: World)
    requires Valid(cfg) && RecordsHold(cfg, w) && RunAll(cfg, cfg.deployer, opts, w).ok
    ensures var end := RunAll(cfg, cfg.deployer, opts, w).world;
            Converging(cfg, again, end) == Idle(end) <==>
            !(NameIsTaken(cfg, w) && Holds(cfg, w, X) != Holds(cfg, w, GitHub))
  {
    AgreementIsForeseen(cfg, opts, w);
    QuietWhereCircuitsAgree(cfg, opts, again, w);
  }

  /** In particular wherever that name holds only the release's own code. */
  lemma QuietWhereNamesAreVendored(cfg: NetworkConfig, opts: Options, again: bool, w: World)
    requires Valid(cfg) && RecordsHold(cfg, w) && RunAll(cfg, cfg.deployer, opts, w).ok
    requires NameHoldsVendored(cfg, w, BearerLink)
    ensures var end := RunAll(cfg, cfg.deployer, opts, w).world;
            Converging(cfg, again, end) == Idle(end)
  {
    QuietAfterUpgrades(cfg, opts, again, w);
  }
}
