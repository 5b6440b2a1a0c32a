/** Chains the exact conditions are about: one on which a run with an upgrade is
    not the last to send, one with a quiet plan and a run that is not, and one
    that only the run with the upgrade brings up to date. */
module Witness {
  import opened Prelude
  import opened Config
  import opened Worlds
  import opened Converge
  import opened Stability
  import opened Recovery
  import opened Convergence
  import opened GoalState
  import opened Flow
  import opened Checks
  import opened Plan
  import opened Agreement
  import opened QuietPlans
  import opened Progress
  import opened Lockstep
  import opened NotaryPointers
  import opened Restart
  import opened Rotation

  const DEPLOYER: Address := 7
  const NOTARY: Address := 8
  /** The embedded verifier under an older name, and foreign code at its new
      one. */
  const OLD_VERIFIER: Address := 300
  const NEW_VERIFIER: Address := 301

  const FILE: NetworkConfig := NetworkConfig(
    1, DEPLOYER, NOTARY, None, 5, None,
    Contracts(10, 11, 12, 13, 14, 15, 16, 17, 18),
    Artifacts(1, 1, 2, 9),
    map[CircuitVerifier(BearerLink, 1) := NEW_VERIFIER, CircuitVerifier(OidcGoogle, 1) := 302],
    map[], [])

  const BLANK: Slots := Slots({}, 0, ZERO, map[], ZERO, ZERO, ZERO, ZERO, false)

  function Running(n: Name, slots: Slots): Proxy {
    Proxy(Release(FILE, n), DEPLOYER, slots)
  }

  /** An X verifier that cannot be asked for its circuit verifier. */
  const UNREADABLE: Impl := Impl(Interface(PlatformVerifier(X)) - {HonkVerifier}, Some(Vendored(FILE, BearerLink)))

  const X_SLOTS: Slots := BLANK.(notary := 11, honk := OLD_VERIFIER)

  const OTHERS: map<Name, Proxy> := map[
    NotaryService := Running(NotaryService, BLANK.(trusted := {NOTARY}, fee := 5)),
    CeremonyProofVerifier := Running(CeremonyProofVerifier, BLANK.(versions := map[X := 16, GitHub := 17, Google := 18])),
    IdentityRegistry := Running(IdentityRegistry, BLANK.(pointer := 12)),
    HandleEscrow := Running(HandleEscrow, BLANK.(pointer := 13)),
    GoogleJwtRoots := Running(GoogleJwtRoots, BLANK.(pointer := 11)),
    PlatformVerifier(Google) := Running(PlatformVerifier(Google), BLANK.(honk := 302, roots := 15))]

  const GITHUB_SLOTS: Slots := BLANK.(notary := 11, honk := NEW_VERIFIER)

  /** The names the factory has deployed, and the one of the circuit X and
      GitHub share. */
  const RECORDS: map<Name, Address> := map[
    NotaryService := 11, CeremonyProofVerifier := 12, IdentityRegistry := 13, HandleEscrow := 14, GoogleJwtRoots := 15,
    PlatformVerifier(X) := 16, PlatformVerifier(GitHub) := 17, PlatformVerifier(Google) := 18,
    CircuitVerifier(OidcGoogle, 1) := 302]

  const OWN_FACTORY: Factory := Factory(DEPLOYER, ZERO, RECORDS)

  function ChainWith(x: Impl, github: Impl): World {
    World(1, false, true, true, true,
      Some(OWN_FACTORY.(records := RECORDS[CircuitVerifier(BearerLink, 1) := NEW_VERIFIER])),
      OTHERS[PlatformVerifier(GitHub) := Proxy(github, DEPLOYER, GITHUB_SLOTS)]
            [PlatformVerifier(X) := Proxy(x, DEPLOYER, X_SLOTS)],
      map[OLD_VERIFIER := Vendored(FILE, BearerLink), NEW_VERIFIER := OtherCode(13),
          302 := Vendored(FILE, OidcGoogle)],
      map[], map[])
  }

  /** The chain on which X is to be upgraded, and after that; GitHub's verifier
      answers everything, whatever code it pins. */
  function Before(github: Impl): World {
    ChainWith(UNREADABLE, github)
  }

  function After(github: Impl): World {
    ChainWith(Release(FILE, PlatformVerifier(X)), github)
  }

  predicate OnTheWay(github: Impl, w: World) {
    Interface(PlatformVerifier(GitHub)) <= github.answers && (w == Before(github) || w == After(github))
  }

  const UPGRADE_X: Options := Options([PlatformVerifier(X)], false)

  lemma FileIsPlaced(n: Name)
    requires IsOwn(FILE, n)
    ensures At(FILE, n) != ZERO
  {
    if n.CircuitVerifier? { assert n.circuit == BearerLink || n.circuit == OidcGoogle; }
  }

  lemma FileIsValid()
    ensures Valid(FILE)
  {
    forall n | IsOwn(FILE, n) ensures At(FILE, n) != ZERO { FileIsPlaced(n); }
  }

  lemma RecordedAt(n: Name)
    requires n in RECORDS
    ensures IsEntry(n) || n == OwnVerifier(FILE, OidcGoogle)
    ensures RECORDS[n] == At(FILE, n)
  {
  }

  lemma RecordsHoldBefore(github: Impl)
    ensures RecordsHold(FILE, Before(github))
  {
    forall n | n in Before(github).factory.value.records
      ensures Before(github).factory.value.records[n] == At(FILE, n) && Present(FILE, Before(github), n)
    {
      if n in RECORDS {
        RecordedAt(n);
        if IsEntry(n) { EntryIsIn(github, UNREADABLE, n); }
      }
    }
  }

  lemma EntryIsIn(github: Impl, x: Impl, n: Name)
    requires IsEntry(n)
    ensures n in ChainWith(x, github).proxies
  {
    if n.PlatformVerifier? { OneOfThree(n.platform); }
  }

  lemma XIsUpgraded(github: Impl)
    ensures Apply(FILE, Upgrade(PlatformVerifier(X)), Before(github)) == Some(After(github))
    ensures Apply(FILE, Upgrade(PlatformVerifier(X)), After(github)) == Some(After(github))
  {
    var n := PlatformVerifier(X);
    var upgraded := Proxy(Release(FILE, n), DEPLOYER, X_SLOTS);
    assert Before(github).proxies[n := upgraded] == After(github).proxies;
    assert After(github).proxies[n := upgraded] == After(github).proxies;
  }

  lemma Sees(github: Impl)
    ensures Locate(FILE, Before(github)) == Sites(Named(NEW_VERIFIER), InUse(302))
  {
  }

  const CTX: Ctx := Ctx(FILE, false, Sites(Named(NEW_VERIFIER), InUse(302)))

  lemma HasAll(github: Impl, w: World)
    requires OnTheWay(github, w)
    ensures !NeedsFactory(CTX, w)
  {
    forall n | n in ENTRIES ensures n in w.proxies {
      var i :| 0 <= i < |ENTRIES| && ENTRIES[i] == n;
      EntriesAreEntries(i);
      EntryIsIn(github, w.proxies[PlatformVerifier(X)].impl, n);
    }
  }

  lemma NotaryMetOn(github: Impl, w: World, g: Goal)
    requires OnTheWay(github, w) && (g.NotaryTrusted? || g.FeeCharged? || g.RecipientSet?)
    ensures Met(CTX, g, w)
  {
  }

  lemma RegistersOn(github: Impl, w: World)
    requires OnTheWay(github, w)
    ensures Answers(w, CeremonyProofVerifier, VerifierOf)
    ensures SlotsOf(w, CeremonyProofVerifier).versions == map[X := 16, GitHub := 17, Google := 18]
  {
  }

  lemma RegisteredMetOn(github: Impl, w: World, p: Platform)
    requires OnTheWay(github, w)
    ensures Met(CTX, Registered(p), w)
  {
    RegistersOn(github, w);
    OneOfThree(p);
    RegisteredIsMet(CTX, w, p);
  }

  lemma RegisteredIsMet(ctx: Ctx, w: World, p: Platform)
    requires Answers(w, CeremonyProofVerifier, VerifierOf) && p in SlotsOf(w, CeremonyProofVerifier).versions
    requires SlotsOf(w, CeremonyProofVerifier).versions[p] == At(ctx.cfg, PlatformVerifier(p))
    ensures Met(ctx, Registered(p), w)
  {
  }

  lemma PointersMetOn(github: Impl, w: World, g: Goal)
    requires OnTheWay(github, w) && (g.RegistryWired? || g.RootsWired?)
    ensures Met(CTX, g, w)
  {
  }

  lemma WiringMetOn(github: Impl, w: World, g: Goal)
    requires OnTheWay(github, w)
    requires g.RegistryWired? || g.EscrowBound? || g.RootsWired? || g.GoogleRootsRead?
    ensures Met(CTX, g, w)
  {
    if g.RegistryWired? || g.RootsWired? { PointersMetOn(github, w, g); }
  }

  lemma SetterMetOn(github: Impl, w: World, g: Goal)
    requires OnTheWay(github, w) && GoesThroughProxy(g)
    ensures Met(CTX, g, w)
  {
    match g {
      case NotaryTrusted => NotaryMetOn(github, w, g);
      case FeeCharged => NotaryMetOn(github, w, g);
      case RecipientSet => NotaryMetOn(github, w, g);
      case Registered(p) => RegisteredMetOn(github, w, p);
      case _ => WiringMetOn(github, w, g);
    }
  }

  lemma XMetOn(github: Impl)
    ensures Met(CTX, TrustRootsSet(X), After(github))
  {
  }

  lemma GitHubMetOn(github: Impl, w: World)
    requires OnTheWay(github, w)
    ensures Met(CTX, TrustRootsSet(GitHub), w)
  {
  }

  lemma GoogleMetOn(github: Impl, w: World)
    requires OnTheWay(github, w)
    ensures Met(CTX, TrustRootsSet(Google), w)
  {
  }

  lemma TrustRootsMetOn(github: Impl, w: World, p: Platform)
    requires OnTheWay(github, w) && (w == After(github) || p != X)
    ensures Met(CTX, TrustRootsSet(p), w)
  {
    match p {
      case X => XMetOn(github);
      case GitHub => GitHubMetOn(github, w);
      case Google => GoogleMetOn(github, w);
    }
  }

  /** A registry wired as declared accepts a platform registered as declared. */
  lemma RoutedIsMet(ctx: Ctx, w: World, p: Platform)
    requires Valid(ctx.cfg) && Answers(w, IdentityRegistry, AcceptsBindings)
    requires Met(ctx, RegistryWired, w) && Met(ctx, Registered(p), w)
    ensures Met(ctx, Accepting(p), w)
  {
    OwnIsPlaced(ctx.cfg, PlatformVerifier(p));
    RoutedMeans(ctx, w, p);
  }

  lemma AcceptingMetOn(github: Impl, w: World, p: Platform)
    requires OnTheWay(github, w)
    ensures Met(CTX, Accepting(p), w)
  {
    var ctx := CTX;
    FileIsValid();
    WiringMetOn(github, w, RegistryWired);
    RegisteredMetOn(github, w, p);
    RegistryAnswers(github, w);
    RoutedIsMet(ctx, w, p);
  }

  lemma RegistryAnswers(github: Impl, w: World)
    requires OnTheWay(github, w)
    ensures Answers(w, IdentityRegistry, AcceptsBindings)
  {
  }

  lemma MetOn(github: Impl, w: World, g: Goal)
    requires Ordinary(FILE, g) && OnTheWay(github, w) && (w == After(github) || g != TrustRootsSet(X))
    ensures Met(CTX, g, w)
  {
    if GoesThroughProxy(g) {
      SetterMetOn(github, w, g);
    } else {
      match g {
        case FactoryOwned => HasAll(github, w);
        case Deployed(n) => EntryIsIn(github, w.proxies[PlatformVerifier(X)].impl, n);
        case TrustRootsSet(p) => TrustRootsMetOn(github, w, p);
        case Accepting(p) => AcceptingMetOn(github, w, p);
        case CircuitDeployed(c) => assert c == BearerLink || c == OidcGoogle;
        case _ =>
      }
    }
  }

  const THE_UPGRADE: Goal := Upgraded(PlatformVerifier(X))

  lemma UpgradeRuns(github: Impl, w: World)
    requires OnTheWay(github, w)
    ensures Perform(CTX, THE_UPGRADE, w).ok && Perform(CTX, THE_UPGRADE, w).world == After(github)
  {
    XIsUpgraded(github);
    PerformSends(CTX, THE_UPGRADE, w);
  }

  /** `late`, where it occurs, comes after `acts`. */
  ghost predicate ActsFirst(goals: seq<Goal>, acts: Goal, late: Goal)
    decreases |goals|
  {
    goals != [] && (goals[0] == acts || (goals[0] != late && ActsFirst(goals[1..], acts, late)))
  }

  lemma {:induction false} FoundFirst(goals: seq<Goal>, j: nat, acts: Goal, late: Goal)
    requires j < |goals| && goals[j] == acts && late !in goals[..j]
    ensures ActsFirst(goals, acts, late)
    decreases j
  {
    if j > 0 {
      assert goals[0] in goals[..j];
      assert forall g :: g in goals[1..][..j - 1] ==> g in goals[..j];
      FoundFirst(goals[1..], j - 1, acts, late);
    }
  }

  /** Running on where the goal that acts changes nothing more. */
  lemma {:induction false} ActedOnce(ctx: Ctx, goals: seq<Goal>, acts: Goal, after: World)
    requires Perform(ctx, acts, after).ok && Perform(ctx, acts, after).world == after
    requires forall g :: g in goals && g != acts ==> Met(ctx, g, after)
    ensures var run := Run(ctx, goals, after); run.ok && run.world == after
    decreases |goals|
  {
    if goals != [] {
      assert goals[0] in goals;
      if goals[0] != acts { KeptRun(ctx, goals, after); }
      ActedOnce(ctx, goals[1..], acts, after);
    }
  }

  /** A run of goals among which one acts, before the one goal that is not met
      without it. */
  lemma {:induction false} OneActs(ctx: Ctx, goals: seq<Goal>, acts: Goal, late: Goal, before: World, after: World)
    requires Perform(ctx, acts, before).ok && Perform(ctx, acts, before).world == after
    requires Perform(ctx, acts, after).ok && Perform(ctx, acts, after).world == after
    requires forall g :: g in goals && g != acts ==> Met(ctx, g, after) && (g != late ==> Met(ctx, g, before))
    requires ActsFirst(goals, acts, late)
    ensures var run := Run(ctx, goals, before); run.ok && run.world == after
    decreases |goals|
  {
    assert goals[0] in goals;
    if goals[0] == acts {
      ActedOnce(ctx, goals[1..], acts, after);
    } else {
      KeptRun(ctx, goals, before);
      OneActs(ctx, goals[1..], acts, late, before, after);
    }
  }

  lemma UpgradeIsAGoal()
    ensures THE_UPGRADE in Goals(FILE, [PlatformVerifier(X)])
  {
    var u := [PlatformVerifier(X)];
    assert u[1..] == [];
    assert UpgradesOf(u, PlatformVerifier(X)) == [THE_UPGRADE];
    assert THE_UPGRADE in PlatformSection(u, X);
    StackGoalsAreGoals(FILE, u, PlatformSection(u, X), THE_UPGRADE);
  }

  lemma UpgradeComesFirst(u: seq<Name>, goals: seq<Goal>)
    requires goals == Goals(FILE, u) && THE_UPGRADE in goals
    ensures ActsFirst(goals, THE_UPGRADE, TrustRootsSet(X))
  {
    var j :| 0 <= j < |goals| && goals[j] == THE_UPGRADE;
    UpgradeBeforeRead(FILE, u, j);
    RotationReadsItsProxy(X);
    FoundFirst(goals, j, THE_UPGRADE, TrustRootsSet(X));
  }

  lemma OthersAreOrdinary(cfg: NetworkConfig, u: seq<Name>, g: Goal)
    requires g in Goals(cfg, u) && (g.Upgraded? ==> g.name !in u)
    ensures Ordinary(cfg, g)
  {
    GoalIndexed(cfg, u, g);
  }

  lemma MetOnBoth(github: Impl, g: Goal)
    requires Ordinary(FILE, g) && Interface(PlatformVerifier(GitHub)) <= github.answers
    ensures Met(CTX, g, After(github)) && (g != TrustRootsSet(X) ==> Met(CTX, g, Before(github)))
  {
    MetOn(github, After(github), g);
    if g != TrustRootsSet(X) { MetOn(github, Before(github), g); }
  }

  lemma RunUpgradesOnce(github: Impl, u: seq<Name>, goals: seq<Goal>)
    requires Interface(PlatformVerifier(GitHub)) <= github.answers
    requires goals == Goals(FILE, u) && THE_UPGRADE in goals
    requires forall n :: n in u ==> n == PlatformVerifier(X)
    ensures Run(CTX, goals, Before(github)).ok
  {
    forall g | g in goals && g != THE_UPGRADE
      ensures Met(CTX, g, After(github)) && (g != TrustRootsSet(X) ==> Met(CTX, g, Before(github)))
    {
      assert g.Upgraded? ==> g == Upgraded(g.name);
      OthersAreOrdinary(FILE, u, g);
      MetOnBoth(github, g);
    }
    UpgradeComesFirst(u, goals);
    UpgradeRuns(github, Before(github));
    UpgradeRuns(github, After(github));
    OneActs(CTX, goals, THE_UPGRADE, TrustRootsSet(X), Before(github), After(github));
  }

  lemma UpgradeRunEnds(github: Impl)
    requires Interface(PlatformVerifier(GitHub)) <= github.answers
    ensures RunAll(FILE, DEPLOYER, UPGRADE_X, Before(github)).ok
  {
    Sees(github);
    UpgradeIsAGoal();
    RunUpgradesOnce(github, [PlatformVerifier(X)], Goals(FILE, [PlatformVerifier(X)]));
  }

  /** GitHub's verifier of this release, and one that pins other code. */
  const CURRENT: Impl := Release(FILE, PlatformVerifier(GitHub))

  const OTHER_PIN: Impl := CURRENT.(pins := Some(OtherCode(13)))

  /** The upgrade run succeeds, and the plain run after it still has GitHub to
      rotate: X's verifier, found readable by now, holds the vendored code. */
  lemma UpgradeUnsettles()
    ensures var before := Before(CURRENT);
            && Valid(FILE) && RecordsHold(FILE, before)
            && var run := RunAll(FILE, DEPLOYER, UPGRADE_X, before);
               run.ok && Converging(FILE, false, run.world) != Idle(run.world)
  {
    var cfg, opts, before := FILE, UPGRADE_X, Before(CURRENT);
    FileIsValid();
    RecordsHoldBefore(CURRENT);
    UpgradeRunEnds(CURRENT);
    OnlyXHolds(CURRENT);
    QuietAfterUpgrades(cfg, opts, false, before);
  }

  lemma OnlyXHolds(github: Impl)
    ensures NameIsTaken(FILE, Before(github))
    ensures Holds(FILE, Before(github), X) && !Holds(FILE, Before(github), GitHub)
  {
    Sees(github);
  }

  lemma OtherPinStays()
    ensures !CanRotate(FILE, Before(OTHER_PIN), GitHub)
  {
  }

  /** Where GitHub's verifier pins other code the same run can be cut so that
      starting it again does not succeed. */
  lemma RestartCanFail() returns (k: nat, cut: World)
    ensures var before := Before(OTHER_PIN);
            && Valid(FILE) && RecordsHold(FILE, before) && RunAll(FILE, DEPLOYER, UPGRADE_X, before).ok
            && CutAt(FILE, UPGRADE_X, before, k, cut) && !RunAll(FILE, DEPLOYER, UPGRADE_X, cut).ok
  {
    var cfg, opts, before := FILE, UPGRADE_X, Before(OTHER_PIN);
    FileIsValid();
    RecordsHoldBefore(OTHER_PIN);
    UpgradeRunEnds(OTHER_PIN);
    OnlyXHolds(OTHER_PIN);
    OtherPinStays();
    assert PlatformVerifier(GitHub) !in opts.upgrades;
    k, cut := TrappedFails(cfg, opts, before, X, GitHub);
  }

  // ----- A quiet plan, and a run that sends -----

  /** Everything as declared, both of X and GitHub on the older verifier with
      the vendored code, but Google reading its roots somewhere else. */
  const DRIFTED: World := World(1, false, true, true, true, Some(OWN_FACTORY),
    map[
      NotaryService := Running(NotaryService, BLANK.(trusted := {NOTARY}, fee := 5)),
      CeremonyProofVerifier := Running(CeremonyProofVerifier, BLANK.(versions := map[X := 16, GitHub := 17, Google := 18])),
      IdentityRegistry := Running(IdentityRegistry, BLANK.(pointer := 12)),
      HandleEscrow := Running(HandleEscrow, BLANK.(pointer := 13)),
      GoogleJwtRoots := Running(GoogleJwtRoots, BLANK.(pointer := 11)),
      PlatformVerifier(X) := Running(PlatformVerifier(X), BLANK.(notary := 11, honk := OLD_VERIFIER)),
      PlatformVerifier(GitHub) := Running(PlatformVerifier(GitHub), BLANK.(notary := 11, honk := OLD_VERIFIER)),
      PlatformVerifier(Google) := Running(PlatformVerifier(Google), BLANK.(honk := 302, roots := 99))],
    map[OLD_VERIFIER := Vendored(FILE, BearerLink), 302 := Vendored(FILE, OidcGoogle)],
    map[], map[])

  lemma DriftedRuns(n: Name)
    requires IsEntry(n)
    ensures n in DRIFTED.proxies && DRIFTED.proxies[n].owner == DEPLOYER && DRIFTED.proxies[n].impl == Release(FILE, n)
  {
    if n.PlatformVerifier? { OneOfThree(n.platform); }
  }

  lemma DriftedSites(c: Circuit)
    ensures SiteOf(FILE, DRIFTED, c) == InUse(if c.BearerLink? then OLD_VERIFIER else 302)
  {
  }

  lemma DriftedPlatformLine(line: Line)
    requires line.TrustRootsLine? || line.RegistrationLine? || line.AcceptsLine?
    ensures QuietLine(FILE, DRIFTED, line)
  {
    OneOfThree(line.platform);
    DriftedSites(CircuitOf(line.platform));
  }

  lemma DriftedLine(line: Line)
    requires Covered(FILE, DRIFTED, line)
    ensures QuietLine(FILE, DRIFTED, line)
  {
    match line {
      case ContractLine(n) => DriftedRuns(n);
      case CircuitLine(c) => DriftedSites(c);
      case TrustRootsLine(_) => DriftedPlatformLine(line);
      case RegistrationLine(_) => DriftedPlatformLine(line);
      case AcceptsLine(_) => DriftedPlatformLine(line);
      case _ =>
    }
  }

  lemma DriftedPlanIsQuiet()
    ensures Quiet(PlanOf(FILE, DRIFTED))
  {
    var cfg, w := FILE, DRIFTED;
    FileIsValid();
    forall item | item in PlanOf(cfg, w) ensures item.status.Good? || item.status.Skipped? {
      PlanHolds(cfg, w, item);
      PlanCovers(cfg, w, item.line);
      DriftedLine(item.line);
    }
  }

  lemma DriftedTakesRoots()
    ensures TakesRoots(FILE, DRIFTED)
  {
    DriftedRuns(PlatformVerifier(Google));
  }

  lemma DriftedRecords()
    ensures RecordsHold(FILE, DRIFTED)
  {
    forall n | n in RECORDS ensures RECORDS[n] == At(FILE, n) && Present(FILE, DRIFTED, n) {
      RecordedAt(n);
      if IsEntry(n) { DriftedRuns(n); }
    }
  }

  /** A plan without a remark, and a run that sends one transaction: a quiet
      plan alone does not mean a quiet run. */
  lemma QuietPlanUnquietRun()
    ensures Valid(FILE) && RecordsHold(FILE, DRIFTED) && Quiet(PlanOf(FILE, DRIFTED))
    ensures Converging(FILE, false, DRIFTED).ok
    ensures Converging(FILE, false, DRIFTED).trace == [RootsRepair(FILE)]
  {
    var cfg, w := FILE, DRIFTED;
    FileIsValid();
    DriftedRecords();
    DriftedPlanIsQuiet();
    DriftedTakesRoots();
    DriftedReadsElsewhere();
    UnwiredRun(cfg, false, w);
  }

  lemma DriftedReadsElsewhere()
    ensures !GoogleRootsWired(FILE, DRIFTED)
  {
  }

  // ----- A chain only an upgrade brings up to date -----

  /** As above, but X's verifier is of the release before, and so is the code it
      pins and uses. */
  const LAST_RELEASE: Code := OtherCode(21)

  const OUTDATED: World :=
    DRIFTED.(
      proxies := DRIFTED.proxies[PlatformVerifier(X) :=
        Proxy(Impl(Interface(PlatformVerifier(X)), Some(LAST_RELEASE)), DEPLOYER, X_SLOTS.(honk := 400))],
      code := DRIFTED.code[400 := LAST_RELEASE])

  lemma OutdatedRuns(n: Name)
    requires IsEntry(n)
    ensures n in OUTDATED.proxies && OUTDATED.proxies[n].owner == DEPLOYER
    ensures n != PlatformVerifier(X) ==> OUTDATED.proxies[n].impl == Release(FILE, n)
    ensures n == PlatformVerifier(X) ==> UpgradeToAndCall in OUTDATED.proxies[n].impl.answers
  {
    if n != PlatformVerifier(X) { DriftedRuns(n); }
  }

  lemma OutdatedEntries()
    ensures forall n :: n in OUTDATED.proxies ==> IsEntry(n)
    ensures OUTDATED.factory.value.owner == DEPLOYER
    ensures OUTDATED.proxies[HandleEscrow].slots.pointer == At(FILE, IdentityRegistry)
  {
  }

  lemma OutdatedRecords()
    ensures RecordsHold(FILE, OUTDATED)
  {
    forall n | n in RECORDS ensures RECORDS[n] == At(FILE, n) && Present(FILE, OUTDATED, n) {
      RecordedAt(n);
      if IsEntry(n) { OutdatedRuns(n); }
    }
  }

  lemma OutdatedIsHospitable()
    ensures Hospitable(FILE, OUTDATED)
  {
    OutdatedRecords();
  }

  lemma OutdatedPinsOther()
    ensures PinsOther(FILE, OUTDATED, X) && UsesOther(FILE, OUTDATED, X)
  {
  }

  lemma OutdatedIsRenewable()
    ensures Renewable(FILE, UPGRADE_X, OUTDATED)
  {
    var cfg, w, stale := FILE, OUTDATED, Elements(UPGRADE_X.upgrades);
    OutdatedEntries();
    OutdatedIsHospitable();
    assert UPGRADE_X.upgrades[0] == PlatformVerifier(X);
    forall n | n in w.proxies
      ensures w.proxies[n].owner == cfg.deployer
      ensures Serves(cfg, n, w.proxies[n].impl) || (n in stale && UpgradeToAndCall in w.proxies[n].impl.answers)
    {
      OutdatedRuns(n);
      ReleaseServes(cfg, n);
    }
  }

  /** A chain of the release before: the run that upgrades X brings it to what
      the file declares, and the run that does not stops. */
  lemma OutdatedConverges()
    ensures var run := RunAll(FILE, DEPLOYER, UPGRADE_X, OUTDATED);
            run.ok && Converged(FILE, run.world) && Rotated(run.trace, X)
    ensures !Converging(FILE, false, OUTDATED).ok
  {
    var cfg, plain, w := FILE, NoUpgrades(false), OUTDATED;
    FileIsValid();
    OutdatedPinsOther();
    OutdatedIsRenewable();
    RunSucceeds(cfg, UPGRADE_X, w);
    UpgradeXIs(plain);
    RotatesExactlyWithUpgrade(cfg, plain, w, X);
    RequestedTwice(cfg, UPGRADE_X, w, PlatformVerifier(X));
    RotatesExactlyWithUpgrade(cfg, UPGRADE_X, w, X);
  }

  lemma UpgradeXIs(plain: Options)
    requires plain == NoUpgrades(false)
    ensures plain.(upgrades := [PlatformVerifier(X)] + plain.upgrades) == UPGRADE_X
  {
  }

  // ----- A notary handed back without code -----

  /** As above but for the pin, with a notary pointer that leads nowhere. */
  const NOWHERE: Address := 999

  const ASTRAY: World :=
    DRIFTED.(
      proxies := DRIFTED.proxies[PlatformVerifier(X) :=
        Running(PlatformVerifier(X), BLANK.(notary := NOWHERE, honk := 400))],
      code := DRIFTED.code[400 := LAST_RELEASE])

  const PLAIN: Options := Options([], false)

  lemma AstrayRuns(n: Name)
    requires IsEntry(n)
    ensures n in ASTRAY.proxies && ASTRAY.proxies[n].owner == DEPLOYER && ASTRAY.proxies[n].impl == Release(FILE, n)
  {
    if n != PlatformVerifier(X) { DriftedRuns(n); }
  }

  lemma AstrayEntries()
    ensures forall n :: n in ASTRAY.proxies ==> IsEntry(n)
    ensures ASTRAY.factory.value.owner == DEPLOYER
    ensures ASTRAY.proxies[HandleEscrow].slots.pointer == At(FILE, IdentityRegistry)
  {
  }

  lemma AstrayRecords()
    ensures RecordsHold(FILE, ASTRAY)
  {
    forall n | n in RECORDS ensures RECORDS[n] == At(FILE, n) && Present(FILE, ASTRAY, n) {
      RecordedAt(n);
      if IsEntry(n) { AstrayRuns(n); }
    }
  }

  lemma AstrayIsHospitable()
    ensures Hospitable(FILE, ASTRAY)
  {
    AstrayRecords();
  }

  lemma AstrayIsRenewable()
    ensures Renewable(FILE, PLAIN, ASTRAY)
  {
    AstrayEntries();
    AstrayIsHospitable();
    forall n | n in ASTRAY.proxies
      ensures ASTRAY.proxies[n].owner == FILE.deployer && Serves(FILE, n, ASTRAY.proxies[n].impl)
    {
      AstrayRuns(n);
      ReleaseServes(FILE, n);
    }
  }

  lemma AstraySites()
    ensures SiteOf(FILE, ASTRAY, BearerLink) == InUse(OLD_VERIFIER) && UsesOther(FILE, ASTRAY, X)
    ensures SiteOf(FILE, ASTRAY, OidcGoogle) == InUse(302)
    ensures SlotsOf(ASTRAY, PlatformVerifier(X)).notary == NOWHERE
  {
  }

  lemma NoEntryNowhere(n: Name)
    ensures At(FILE, n) != NOWHERE
  {
  }

  lemma NowhereHoldsNothing()
    ensures !HoldsCode(FILE, ASTRAY, NOWHERE)
  {
    forall n ensures At(FILE, n) != NOWHERE { NoEntryNowhere(n); }
  }

  lemma NothingBroughtNowhere(goals: seq<Goal>)
    ensures !Brought(CtxOf(FILE, false, ASTRAY), goals, NOWHERE)
  {
    AstraySites();
    forall n ensures At(FILE, n) != NOWHERE { NoEntryNowhere(n); }
  }

  /** A run that succeeds and converges, and on its way hands X's verifier back
      a notary at whose address there is no code. */
  lemma NotaryAstray()
    ensures var run := RunAll(FILE, DEPLOYER, PLAIN, ASTRAY);
            && run.ok && Converged(FILE, run.world)
            && SetOn(PlatformVerifier(X), VerifyWith(NOWHERE, OLD_VERIFIER)) in run.trace
            && !HoldsCode(FILE, run.world, NOWHERE)
  {
    var cfg, opts, w := FILE, PLAIN, ASTRAY;
    var ctx, goals := CtxOf(cfg, false, w), Goals(cfg, []);
    FileIsValid();
    AstrayIsRenewable();
    AstraySites();
    RunSucceeds(cfg, opts, w);
    VendoredIsNotOther(cfg, Run(ctx, goals, w).world, X);
    if !Rotated(Run(ctx, goals, w).trace, X) { UnlessRotated(ctx, X, goals, w); }
    var tx :| tx in Run(ctx, goals, w).trace && Rotates(tx, X);
    RunRotatesAs(ctx, X, goals, w, tx);
    NowhereHoldsNothing();
    NothingBroughtNowhere(goals);
    forall g | g in goals ensures WellFormed(g) { PlainIsWellFormed(cfg, [], g); }
    if HoldsCode(cfg, Run(ctx, goals, w).world, NOWHERE) { RunBrings(ctx, goals, w, NOWHERE); }
  }
}
