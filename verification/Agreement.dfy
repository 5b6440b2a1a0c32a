/** What the plan says about a chain is what apply does to it. */
module Agreement {
  import opened Prelude
  import opened Config
  import opened Worlds
  import opened Converge
  import opened Stability
  import opened Convergence
  import opened GoalState
  import opened Flow
  import opened Deployments
  import opened Checks
  import opened Plan

  // ----- Which lines a plan has -----

  /** When a plan looks at a line at all. */
  predicate Covered(cfg: NetworkConfig, w: World, line: Line) {
    match line
    case ChainIdLine => w.chainId != cfg.chainId
    case ContractLine(n) => IsEntry(n)
    case SignerLine => NotaryService in w.proxies
    case FeeLine => NotaryService in w.proxies
    case RecipientLine => NotaryService in w.proxies && cfg.feeRecipient.Some?
    case RegistryLine => IdentityRegistry in w.proxies
    case EscrowLine => HandleEscrow in w.proxies
    case RootsLine => GoogleJwtRoots in w.proxies
    case RotationLine => GoogleJwtRoots in w.proxies
    case TrustRootsLine(p) => PlatformVerifier(p) in w.proxies
    case AcceptsLine(_) => IdentityRegistry in w.proxies
    case RecordLine(n) => w.factory.Some? && IsEntry(n)
    case OwnerLine => w.factory.Some?
    case ReleaseLine(i) => cfg.safes != [] && i < |RELEASE|
    case SafeLine(i) => i < |cfg.safes| && HoldsRelease(w)
    case OwnersLine(i) => i < |cfg.safes| && HoldsRelease(w)
    case _ => true
  }

  lemma EntryLinesCover(cfg: NetworkConfig, w: World, line: Line)
    ensures line in EntryLines(cfg, w) <==>
      match line
      case ContractLine(n) => IsEntry(n) && !n.PlatformVerifier?
      case SignerLine => NotaryService in w.proxies
      case FeeLine => NotaryService in w.proxies
      case RecipientLine => NotaryService in w.proxies && cfg.feeRecipient.Some?
      case RegistryLine => IdentityRegistry in w.proxies
      case EscrowLine => HandleEscrow in w.proxies
      case RootsLine => GoogleJwtRoots in w.proxies
      case RotationLine => GoogleJwtRoots in w.proxies
      case _ => false
  {
    assert line in EntryLines(cfg, w) <==>
      || line in ContractLines(cfg, w, NotaryService) || line in ContractLines(cfg, w, CeremonyProofVerifier)
      || line in ContractLines(cfg, w, IdentityRegistry) || line in ContractLines(cfg, w, HandleEscrow)
      || line in ContractLines(cfg, w, GoogleJwtRoots);
  }

  lemma PlatformLinesCover(cfg: NetworkConfig, w: World, p: Platform, line: Line)
    ensures line in PlatformLines(cfg, w, p) <==>
      || line == ContractLine(PlatformVerifier(p)) || line == RegistrationLine(p)
      || (line == TrustRootsLine(p) && PlatformVerifier(p) in w.proxies)
      || (line == AcceptsLine(p) && IdentityRegistry in w.proxies)
  {
  }

  lemma PlatformsLinesCover(cfg: NetworkConfig, w: World, line: Line)
    ensures line in PlatformsLines(cfg, w, |LAUNCH|) <==>
      || line in PlatformLines(cfg, w, X) || line in PlatformLines(cfg, w, GitHub) || line in PlatformLines(cfg, w, Google)
  {
    assert LAUNCH[2] == Google && LAUNCH[1] == GitHub && LAUNCH[0] == X;
    assert PlatformsLines(cfg, w, 3) == PlatformsLines(cfg, w, 2) + PlatformLines(cfg, w, Google);
    assert PlatformsLines(cfg, w, 2) == PlatformsLines(cfg, w, 1) + PlatformLines(cfg, w, GitHub);
    assert PlatformsLines(cfg, w, 1) == PlatformsLines(cfg, w, 0) + PlatformLines(cfg, w, X);
  }

  lemma CeremonyLinesCover(cfg: NetworkConfig, w: World, line: Line)
    ensures line in CeremonyLines(cfg, w) <==>
      match line
      case ContractLine(n) => n.PlatformVerifier?
      case CircuitLine(_) => true
      case RegistrationLine(_) => true
      case TrustRootsLine(p) => PlatformVerifier(p) in w.proxies
      case AcceptsLine(_) => IdentityRegistry in w.proxies
      case _ => false
  {
    PlatformsLinesCover(cfg, w, line);
    PlatformLinesCover(cfg, w, X, line);
    PlatformLinesCover(cfg, w, GitHub, line);
    PlatformLinesCover(cfg, w, Google, line);
    assert line in CeremonyLines(cfg, w) <==>
      line in [CircuitLine(BearerLink), CircuitLine(OidcGoogle)] || line in PlatformsLines(cfg, w, |LAUNCH|);
    match line {
      case ContractLine(n) => if n.PlatformVerifier? { OneOfThree(n.platform); }
      case RegistrationLine(p) => OneOfThree(p);
      case TrustRootsLine(p) => OneOfThree(p);
      case AcceptsLine(p) => OneOfThree(p);
      case CircuitLine(c) => assert c == BearerLink || c == OidcGoogle;
      case _ =>
    }
  }

  lemma OneOfThree(p: Platform)
    ensures p == X || p == GitHub || p == Google
  {
  }

  lemma RecordLinesCover(line: Line)
    ensures line in RecordLines(|ENTRIES|) <==> line.RecordLine? && IsEntry(line.name)
  {
    var records := RecordLines(|ENTRIES|);
    if line.RecordLine? && IsEntry(line.name) {
      EntriesComplete(line.name);
      var i :| 0 <= i < |ENTRIES| && ENTRIES[i] == line.name;
      assert records[i] == line;
    }
    if line in records {
      var i :| 0 <= i < |records| && records[i] == line;
      EntriesAreEntries(i);
    }
  }

  lemma FactoryLinesCover(w: World, line: Line)
    ensures line in FactoryLines(w) <==>
      w.factory.Some? && (line == OwnerLine || (line.RecordLine? && IsEntry(line.name)))
  {
    RecordLinesCover(line);
    if w.factory.Some? {
      assert line in FactoryLines(w) <==> line in RecordLines(|ENTRIES|) || line in [OwnerLine];
    }
  }

  lemma {:induction false} SafeLinesCover(k: nat, line: Line)
    ensures line in SafeLines(k) <==> (line.SafeLine? || line.OwnersLine?) && line.index < k
  {
    if k > 0 {
      SafeLinesCover(k - 1, line);
      assert line in SafeLines(k) <==> line in SafeLines(k - 1) || line in [SafeLine(k - 1), OwnersLine(k - 1)];
    }
  }

  lemma SafesLinesCover(cfg: NetworkConfig, w: World, line: Line)
    ensures line in SafesLines(cfg, w) <==>
      match line
      case ReleaseLine(i) => cfg.safes != [] && i < |RELEASE|
      case SafeLine(i) => i < |cfg.safes| && HoldsRelease(w)
      case OwnersLine(i) => i < |cfg.safes| && HoldsRelease(w)
      case _ => false
  {
    ReleaseIsCanonical(w);
    SafeLinesCover(|cfg.safes|, line);
    if line.ReleaseLine? && line.index < |RELEASE| { assert ReleaseLines(|RELEASE|)[line.index] == line; }
  }

  lemma PlanCovers(cfg: NetworkConfig, w: World, line: Line)
    ensures line in Lines(cfg, w) <==> Covered(cfg, w, line)
  {
    EntryLinesCover(cfg, w, line);
    CeremonyLinesCover(cfg, w, line);
    FactoryLinesCover(w, line);
    SafesLinesCover(cfg, w, line);
    MemberOfParts(cfg, w, line);
  }

  lemma MemberOfParts(cfg: NetworkConfig, w: World, line: Line)
    ensures line in Lines(cfg, w) <==>
      || line in ChainLines(cfg, w) || line in [Create2Line, FactoryLine] || line in EntryLines(cfg, w)
      || line in CeremonyLines(cfg, w) || line in FactoryLines(w) || line in SafesLines(cfg, w)
  {
  }

  // ----- In what order -----

  /** Where a line stands in a plan. */
  function Rank(line: Line): nat {
    match line
    case ChainIdLine => 0
    case Create2Line => 1
    case FactoryLine => 2
    case ContractLine(NotaryService) => 3
    case SignerLine => 4
    case FeeLine => 5
    case RecipientLine => 6
    case ContractLine(CeremonyProofVerifier) => 7
    case ContractLine(IdentityRegistry) => 8
    case RegistryLine => 9
    case ContractLine(HandleEscrow) => 10
    case EscrowLine => 11
    case ContractLine(GoogleJwtRoots) => 12
    case RootsLine => 13
    case RotationLine => 14
    case CircuitLine(c) => if c.BearerLink? then 15 else 16
    case ContractLine(PlatformVerifier(p)) => 20 + 4 * Place(p)
    case TrustRootsLine(p) => 21 + 4 * Place(p)
    case RegistrationLine(p) => 22 + 4 * Place(p)
    case AcceptsLine(p) => 23 + 4 * Place(p)
    case RecordLine(NotaryService) => 40
    case RecordLine(CeremonyProofVerifier) => 41
    case RecordLine(IdentityRegistry) => 42
    case RecordLine(HandleEscrow) => 43
    case RecordLine(GoogleJwtRoots) => 44
    case RecordLine(PlatformVerifier(p)) => 45 + Place(p)
    case OwnerLine => 48
    case ReleaseLine(i) => 50 + i
    case SafeLine(i) => 60 + 2 * i
    case OwnersLine(i) => 61 + 2 * i
    case _ => 0
  }

  function Place(p: Platform): nat {
    match p
    case X => 0
    case GitHub => 1
    case Google => 2
  }

  /** The lines stand in order, from rank `lo` on and below `hi`. */
  ghost predicate Ranked(lines: seq<Line>, lo: nat, hi: nat) {
    && (forall i :: 0 <= i < |lines| ==> lo <= Rank(lines[i]) < hi)
    && (forall i, j :: 0 <= i < j < |lines| ==> Rank(lines[i]) < Rank(lines[j]))
  }

  lemma RankedAppend(a: seq<Line>, b: seq<Line>, lo: nat, mid: nat, hi: nat)
    requires Ranked(a, lo, mid) && Ranked(b, mid, hi) && lo <= mid <= hi
    ensures Ranked(a + b, lo, hi)
  {
  }

  lemma ContractRanked(cfg: NetworkConfig, w: World, n: Name)
    requires IsEntry(n)
    ensures var at, most := Rank(ContractLine(n)), match n
              case NotaryService => 4
              case CeremonyProofVerifier => 1
              case GoogleJwtRoots => 3
              case _ => 2;
            Ranked(ContractLines(cfg, w, n), at, at + most)
  {
  }

  lemma EntryRanked(cfg: NetworkConfig, w: World)
    ensures Ranked(EntryLines(cfg, w), 3, 15)
  {
    ContractRanked(cfg, w, NotaryService);
    ContractRanked(cfg, w, CeremonyProofVerifier);
    ContractRanked(cfg, w, IdentityRegistry);
    ContractRanked(cfg, w, HandleEscrow);
    ContractRanked(cfg, w, GoogleJwtRoots);
    var a := ContractLines(cfg, w, NotaryService);
    var b := a + ContractLines(cfg, w, CeremonyProofVerifier);
    var c := b + ContractLines(cfg, w, IdentityRegistry);
    var d := c + ContractLines(cfg, w, HandleEscrow);
    RankedAppend(a, ContractLines(cfg, w, CeremonyProofVerifier), 3, 7, 8);
    RankedAppend(b, ContractLines(cfg, w, IdentityRegistry), 3, 8, 10);
    RankedAppend(c, ContractLines(cfg, w, HandleEscrow), 3, 10, 12);
    RankedAppend(d, ContractLines(cfg, w, GoogleJwtRoots), 3, 12, 15);
  }

  lemma PlatformRanked(cfg: NetworkConfig, w: World, p: Platform)
    ensures Ranked(PlatformLines(cfg, w, p), 20 + 4 * Place(p), 24 + 4 * Place(p))
  {
    var at := 20 + 4 * Place(p);
    ContractRanked(cfg, w, PlatformVerifier(p));
    var a := ContractLines(cfg, w, PlatformVerifier(p)) + [RegistrationLine(p)];
    RankedAppend(ContractLines(cfg, w, PlatformVerifier(p)), [RegistrationLine(p)], at, at + 2, at + 3);
    RankedAppend(a, If(IdentityRegistry in w.proxies, [AcceptsLine(p)]), at, at + 3, at + 4);
  }

  lemma {:induction false} PlatformsRanked(cfg: NetworkConfig, w: World, k: nat)
    requires k <= |LAUNCH|
    ensures Ranked(PlatformsLines(cfg, w, k), 20, 20 + 4 * k)
  {
    if k > 0 {
      var before := k - 1;
      LaunchPlace(before);
      PlatformsRanked(cfg, w, before);
      PlatformRanked(cfg, w, LAUNCH[before]);
      var at := 20 + 4 * before;
      RankedAppend(PlatformsLines(cfg, w, before), PlatformLines(cfg, w, LAUNCH[before]), 20, at, at + 4);
    }
  }

  lemma LaunchPlace(i: nat)
    requires i < |LAUNCH|
    ensures Place(LAUNCH[i]) == i
  {
  }

  lemma CeremonyRanked(cfg: NetworkConfig, w: World)
    ensures Ranked(CeremonyLines(cfg, w), 15, 32)
  {
    PlatformsRanked(cfg, w, |LAUNCH|);
    RankedAppend([CircuitLine(BearerLink), CircuitLine(OidcGoogle)], PlatformsLines(cfg, w, |LAUNCH|), 15, 20, 32);
  }

  lemma FactoryRanked(w: World)
    ensures Ranked(FactoryLines(w), 32, 49)
  {
    var records := RecordLines(|ENTRIES|);
    forall i | 0 <= i < |records| ensures Rank(records[i]) == 40 + i {
      assert records[i] == RecordLine(ENTRIES[i]);
      EntryRank(i);
    }
  }

  lemma EntryRank(i: nat)
    requires i < |ENTRIES|
    ensures Rank(RecordLine(ENTRIES[i])) == 40 + i
  {
  }

  lemma {:induction false} SafesRanked(k: nat)
    ensures Ranked(SafeLines(k), 60, 60 + 2 * k)
  {
    if k > 0 {
      SafesRanked(k - 1);
      RankedAppend(SafeLines(k - 1), [SafeLine(k - 1), OwnersLine(k - 1)], 60, 60 + 2 * (k - 1), 60 + 2 * k);
    }
  }

  lemma SafesLinesRanked(cfg: NetworkConfig, w: World)
    ensures Ranked(SafesLines(cfg, w), 49, 60 + 2 * |cfg.safes|)
  {
    SafesRanked(|cfg.safes|);
    if cfg.safes != [] {
      RankedAppend(ReleaseLines(|RELEASE|), If(forall i | 0 <= i < |RELEASE| :: IsCanonical(w, i), SafeLines(|cfg.safes|)),
        49, 60, 60 + 2 * |cfg.safes|);
    }
  }

  /** A plan asks every question once, in the order apply meets them, whatever
      the chain leaves out. */
  lemma LinesInOrder(cfg: NetworkConfig, w: World)
    ensures forall i, j :: 0 <= i < j < |Lines(cfg, w)| ==> Rank(Lines(cfg, w)[i]) < Rank(Lines(cfg, w)[j])
  {
    EntryRanked(cfg, w);
    CeremonyRanked(cfg, w);
    FactoryRanked(w);
    SafesLinesRanked(cfg, w);
    var a := [Create2Line, FactoryLine];
    RankedAppend(a, EntryLines(cfg, w), 1, 3, 15);
    RankedAppend(a + EntryLines(cfg, w), CeremonyLines(cfg, w), 1, 15, 32);
    RankedAppend(a + EntryLines(cfg, w) + CeremonyLines(cfg, w), FactoryLines(w), 1, 32, 49);
    RankedAppend(ChainLines(cfg, w), StackLines(cfg, w), 0, 1, 49);
    RankedAppend(ChainLines(cfg, w) + StackLines(cfg, w), SafesLines(cfg, w), 0, 49, 60 + 2 * |cfg.safes|);
  }

  // ----- Deploys -----

  /** The component whose deployment a line is about. */
  function ComponentOf(cfg: NetworkConfig, line: Line): Option<Component> {
    match line
    case FactoryLine => Some(TheFactory)
    case ContractLine(n) => Some(Contract(n))
    case CircuitLine(c) => Some(CircuitCode(c))
    case SafeLine(i) => if i < |cfg.safes| then Some(SafeNamed(cfg.safes[i].name)) else None
    case _ => None
  }

  /** Whether the plan marks a component for deployment. */
  predicate Marks(cfg: NetworkConfig, items: seq<Item>, c: Component) {
    exists item :: item in items && item.status == Deploy && ComponentOf(cfg, item.line) == Some(c)
  }

  lemma SafeIsOnChain(ctx: Ctx, w: World, i: nat)
    requires Valid(ctx.cfg) && i < |ctx.cfg.safes|
    ensures Has(ctx, w, SafeNamed(ctx.cfg.safes[i].name)) <==> SafeAt(ctx.cfg.safes[i]) in w.safes
  {
    forall j | 0 <= j < |ctx.cfg.safes| && j != i ensures ctx.cfg.safes[j].name != ctx.cfg.safes[i].name {
      SafesApart(ctx.cfg, i, j);
    }
  }

  lemma DeployMeansMissing(cfg: NetworkConfig, confirm: bool, w: World, line: Line, c: Component)
    requires Valid(cfg) && Covered(cfg, w, line) && ComponentOf(cfg, line) == Some(c)
    ensures Declares(cfg, c)
    ensures StatusOf(cfg, w, line) == Deploy <==> !Has(CtxOf(cfg, confirm, w), w, c)
  {
    if line.SafeLine? { SafeIsOnChain(CtxOf(cfg, confirm, w), w, line.index); }
  }

  lemma LineOfComponent(cfg: NetworkConfig, w: World, c: Component) returns (line: Line)
    requires Declares(cfg, c) && (cfg.safes == [] || HoldsRelease(w))
    ensures Covered(cfg, w, line) && ComponentOf(cfg, line) == Some(c)
  {
    match c {
      case TheFactory => line := FactoryLine;
      case Contract(n) => line := ContractLine(n);
      case CircuitCode(circuit) => line := CircuitLine(circuit);
      case SafeNamed(table) =>
        var i :| 0 <= i < |cfg.safes| && cfg.safes[i].name == table;
        line := SafeLine(i);
    }
  }

  /** A plan that gets to the Safes marks exactly what the chain lacks. */
  lemma MarkedIsMissing(cfg: NetworkConfig, confirm: bool, w: World, c: Component)
    requires Valid(cfg) && (cfg.safes == [] || HoldsRelease(w))
    ensures Marks(cfg, PlanOf(cfg, w), c) <==> Declares(cfg, c) && !Has(CtxOf(cfg, confirm, w), w, c)
  {
    if Marks(cfg, PlanOf(cfg, w), c) {
      var item :| item in PlanOf(cfg, w) && item.status == Deploy && ComponentOf(cfg, item.line) == Some(c);
      PlanHolds(cfg, w, item);
      PlanCovers(cfg, w, item.line);
      DeployMeansMissing(cfg, confirm, w, item.line, c);
    }
    if Declares(cfg, c) && !Has(CtxOf(cfg, confirm, w), w, c) {
      var line := LineOfComponent(cfg, w, c);
      PlanCovers(cfg, w, line);
      DeployMeansMissing(cfg, confirm, w, line, c);
      PlanHolds(cfg, w, Item(line, Deploy));
    }
  }

  lemma OtherCodeIsOld(cfg: NetworkConfig, tx: Tx, w: World, w': World)
    requires Apply(cfg, tx, w) == Some(w')
    ensures forall a :: a in w'.code && w'.code[a].OtherCode? ==> a in w.code && w.code[a] == w'.code[a]
  {
  }

  /** A run brings no code but circuit verifiers. */
  lemma {:induction false} NoOtherCode(ctx: Ctx, goals: seq<Goal>, w: World)
    ensures var end := Run(ctx, goals, w).world;
            forall a :: a in end.code && end.code[a].OtherCode? ==> a in w.code && w.code[a] == end.code[a]
    decreases |goals|
  {
    if goals != [] {
      var first := Perform(ctx, goals[0], w);
      if MoveFor(ctx, goals[0], w).Send? {
        PerformedWorld(ctx, goals[0], w);
        if Apply(ctx.cfg, Act(ctx, goals[0], w), w).Some? {
          OtherCodeIsOld(ctx.cfg, Act(ctx, goals[0], w), w, first.world);
        }
      }
      if first.ok { NoOtherCode(ctx, goals[1..], first.world); }
    }
  }

  lemma ReleaseWasThere(ctx: Ctx, goals: seq<Goal>, w: World)
    requires HoldsRelease(Run(ctx, goals, w).world)
    ensures HoldsRelease(w)
  {
    NoOtherCode(ctx, goals, w);
  }

  /** What the plan marks for deployment before a run that succeeds is exactly
      what the run reports deployed. */
  lemma PlanPredictsDeploys(cfg: NetworkConfig, opts: Options, w: World, c: Component)
    requires Valid(cfg) && RecordsHold(cfg, w) && RunAll(cfg, cfg.deployer, opts, w).ok
    ensures Marks(cfg, PlanOf(cfg, w), c) <==> c in RunAll(cfg, cfg.deployer, opts, w).deployed
  {
    var ctx := CtxOf(cfg, opts.confirmFreshDeploy, w);
    FinishedIsConverged(cfg, opts, w);
    if cfg.safes != [] { ReleaseWasThere(ctx, Goals(cfg, opts.upgrades), w); }
    MarkedIsMissing(cfg, opts.confirmFreshDeploy, w, c);
    DeployedIsWhatWasMissing(cfg, opts, w, c);
  }

  /** The line of the component a line marked for deployment waits for. */
  function WaitsFor(line: Line): Line {
    match line
    case RegistrationLine(_) => ContractLine(CeremonyProofVerifier)
    case OwnersLine(i) => SafeLine(i)
    case _ => line
  }

  lemma WaitingIsMarked(cfg: NetworkConfig, w: World, line: Line)
    requires Covered(cfg, w, line) && StatusOf(cfg, w, line) == Deploy && line != Create2Line
    ensures Covered(cfg, w, WaitsFor(line)) && StatusOf(cfg, w, WaitsFor(line)) == Deploy
    ensures ComponentOf(cfg, WaitsFor(line)).Some?
  {
  }

  lemma DeployedFor(cfg: NetworkConfig, w: World, line: Line) returns (c: Component)
    requires Covered(cfg, w, line) && StatusOf(cfg, w, line) == Deploy && line != Create2Line
    ensures Marks(cfg, PlanOf(cfg, w), c)
  {
    WaitingIsMarked(cfg, w, line);
    var item := Item(WaitsFor(line), Deploy);
    PlanCovers(cfg, w, item.line);
    PlanHolds(cfg, w, item);
    c := ComponentOf(cfg, item.line).value;
  }

  /** `has_deploys` before a run that succeeds: the keyless deployer is
      missing, or the run reports something deployed. */
  lemma HasDeploysPredicts(cfg: NetworkConfig, opts: Options, w: World)
    requires Valid(cfg) && RecordsHold(cfg, w) && RunAll(cfg, cfg.deployer, opts, w).ok
    ensures HasDeploys(PlanOf(cfg, w)) <==>
            !w.create2Deployer || RunAll(cfg, cfg.deployer, opts, w).deployed != []
  {
    var deployed := RunAll(cfg, cfg.deployer, opts, w).deployed;
    if HasDeploys(PlanOf(cfg, w)) {
      var item :| item in PlanOf(cfg, w) && item.status == Deploy;
      PlanHolds(cfg, w, item);
      PlanCovers(cfg, w, item.line);
      if item.line != Create2Line {
        var c := DeployedFor(cfg, w, item.line);
        PlanPredictsDeploys(cfg, opts, w, c);
      }
    }
    if deployed != [] {
      PlanPredictsDeploys(cfg, opts, w, deployed[0]);
      assert Marks(cfg, PlanOf(cfg, w), deployed[0]);
    }
    if !w.create2Deployer {
      PlanCovers(cfg, w, Create2Line);
      PlanHolds(cfg, w, Item(Create2Line, Deploy));
    }
  }
}
