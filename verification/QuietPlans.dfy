/** A plan with nothing to do, and a run that does nothing. */
module QuietPlans {
  import opened Prelude
  import opened OwnerSets
  import opened OwnerManager
  import opened Config
  import opened Worlds
  import opened Converge
  import opened Stability
  import opened Convergence
  import opened GoalState
  import opened Flow
  import opened Recovery
  import opened Tracking
  import opened Checks
  import opened Plan
  import opened Agreement

  /** Every line is fine or skipped. */
  predicate Quiet(items: seq<Item>) {
    forall item :: item in items ==> item.status.Good? || item.status.Skipped?
  }

  predicate QuietLine(cfg: NetworkConfig, w: World, line: Line) {
    StatusOf(cfg, w, line).Good? || StatusOf(cfg, w, line).Skipped?
  }

  lemma QuietCovers(cfg: NetworkConfig, w: World, line: Line)
    requires Quiet(PlanOf(cfg, w)) && Covered(cfg, w, line)
    ensures QuietLine(cfg, w, line)
  {
    PlanCovers(cfg, w, line);
    PlanHolds(cfg, w, Item(line, StatusOf(cfg, w, line)));
  }

  // ----- Lines and moves -----

  /** The line that predicts a goal. The gate and the release check follow
      from others; Google's root list pointer has none. */
  function LineFor(g: Goal): Option<Line> {
    match g
    case FreshDeployConfirmed => Some(FactoryLine)
    case Create2DeployerInstalled => Some(Create2Line)
    case FactoryInstalled => Some(FactoryLine)
    case Deployed(n) => Some(ContractLine(n))
    case CircuitDeployed(c) => Some(CircuitLine(c))
    case NotaryTrusted => Some(SignerLine)
    case FeeCharged => Some(FeeLine)
    case RecipientSet => Some(RecipientLine)
    case RegistryWired => Some(RegistryLine)
    case EscrowBound => Some(EscrowLine)
    case RootsWired => Some(RootsLine)
    case TrustRootsSet(p) => Some(TrustRootsLine(p))
    case Registered(p) => Some(RegistrationLine(p))
    case Accepting(p) => Some(AcceptsLine(p))
    case OwnershipOffered => Some(OwnerLine)
    case OwnershipAccepted => Some(OwnerLine)
    case SafeCreated(i) => Some(SafeLine(i))
    case SafeHandedOver(i) => Some(OwnersLine(i))
    case _ => None
  }

  /** Settings the plan predicts exactly. */
  predicate PlainSetting(g: Goal) {
    g.NotaryTrusted? || g.FeeCharged? || g.RecipientSet? || g.RegistryWired? || g.RootsWired? || g.Registered?
  }

  /** For a setting of a contract that is there: fine is kept, configure is
      sent, and a failed read stops the run. */
  lemma SettingLineIsMove(ctx: Ctx, w: World, g: Goal)
    requires Valid(ctx.cfg) && PlainSetting(g) && Covered(ctx.cfg, w, LineFor(g).value)
    requires g.Registered? ==> CeremonyProofVerifier in w.proxies
    ensures var status, move := StatusOf(ctx.cfg, w, LineFor(g).value), MoveFor(ctx, g, w);
            && (status == Good <==> move.Keep?) && (status == Configure <==> move.Send?)
            && (status == Warn <==> move.Stop?)
  {
    if g.Registered? { OwnIsPlaced(ctx.cfg, PlatformVerifier(g.platform)); }
  }

  /** The escrow's registry and the accepted platforms are only checked. */
  lemma CheckLineIsMove(ctx: Ctx, w: World, g: Goal)
    requires (g.EscrowBound? || g.Accepting?) && Covered(ctx.cfg, w, LineFor(g).value)
    ensures StatusOf(ctx.cfg, w, LineFor(g).value) == Good <==> MoveFor(ctx, g, w).Keep?
    ensures StatusOf(ctx.cfg, w, LineFor(g).value) != Good <==> MoveFor(ctx, g, w).Stop?
    ensures StatusOf(ctx.cfg, w, LineFor(g).value) == Configure <==>
            g.Accepting? && Answers(w, IdentityRegistry, AcceptsBindings) && MoveFor(ctx, g, w).Stop?
    ensures StatusOf(ctx.cfg, w, LineFor(g).value) in {Good, Configure, Warn}
  {
  }

  /** Before there is a proof verifier to ask, every registration is still to come. */
  lemma RegistrationLineMeans(cfg: NetworkConfig, w: World, p: Platform)
    requires CeremonyProofVerifier !in w.proxies
    ensures StatusOf(cfg, w, RegistrationLine(p)) == Deploy
  {
  }

  lemma TrustRootsKept(ctx: Ctx, w: World, p: Platform)
    requires ctx.sites == Locate(ctx.cfg, w) && PlatformVerifier(p) in w.proxies
    ensures StatusOf(ctx.cfg, w, TrustRootsLine(p)) == Good <==>
            MoveFor(ctx, TrustRootsSet(p), w).Keep? && PinnedAt(w, p) == Some(Some(Vendored(ctx.cfg, CircuitOf(p))))
  {
  }

  lemma TrustRootsSent(ctx: Ctx, w: World, p: Platform)
    requires ctx.sites == Locate(ctx.cfg, w) && PlatformVerifier(p) in w.proxies
    requires MoveFor(ctx, TrustRootsSet(p), w).Send?
    ensures StatusOf(ctx.cfg, w, TrustRootsLine(p)) == Configure
  {
  }

  lemma TrustRootsAnnounced(ctx: Ctx, w: World, p: Platform)
    requires ctx.sites == Locate(ctx.cfg, w) && PlatformVerifier(p) in w.proxies
    requires StatusOf(ctx.cfg, w, TrustRootsLine(p)) == Configure
    ensures var move := MoveFor(ctx, TrustRootsSet(p), w);
            if CodeAt(w, ctx.CircuitAt(p)) == Some(Vendored(ctx.cfg, CircuitOf(p))) && PlatformNotaryAt(w, p).Some?
            then move.Send? else move.Stop?
  {
  }

  /** The plan looks at the pin first: it warns of a stale one that apply
      lives with while the pointer is right, and a rotation it announces goes
      out once the located verifier holds the vendored code. */
  lemma TrustRootsLineIsMove(ctx: Ctx, w: World, p: Platform)
    requires ctx.sites == Locate(ctx.cfg, w) && PlatformVerifier(p) in w.proxies
    ensures var status, move := StatusOf(ctx.cfg, w, TrustRootsLine(p)), MoveFor(ctx, TrustRootsSet(p), w);
            && (status == Good <==> move.Keep? && PinnedAt(w, p) == Some(Some(Vendored(ctx.cfg, CircuitOf(p)))))
            && (move.Send? ==> status == Configure)
            && (status == Configure ==>
                  if CodeAt(w, ctx.CircuitAt(p)) == Some(Vendored(ctx.cfg, CircuitOf(p)))
                     && PlatformNotaryAt(w, p).Some?
                  then move.Send? else move.Stop?)
  {
    TrustRootsKept(ctx, w, p);
    if MoveFor(ctx, TrustRootsSet(p), w).Send? { TrustRootsSent(ctx, w, p); }
    if StatusOf(ctx.cfg, w, TrustRootsLine(p)) == Configure { TrustRootsAnnounced(ctx, w, p); }
  }

  /** The owners read at a Safe are those a file declares for it, as a set,
      under the declared threshold. */
  ghost predicate HoldsDeclared(on: OwnerSet, decl: SafeDecl) {
    Elements(on.owners) == Elements(decl.owners) && on.threshold == decl.threshold
  }

  lemma SameAsHoldsDeclared(cfg: NetworkConfig, w: World, i: nat)
    requires Valid(cfg) && SafesHealthy(w) && i < |cfg.safes|
    requires ReadOwners(w, SafeAt(cfg.safes[i])).Some?
    ensures var on, decl := ReadOwners(w, SafeAt(cfg.safes[i])).value, cfg.safes[i];
            on.SameAs(decl.Declared()) <==> HoldsDeclared(on, decl)
  {
    var decl := cfg.safes[i];
    assert AdmittedSafe(cfg, decl);
    AdmittedIsUsable(decl, cfg.predicted[decl.name]);
    assert Healthy(SafeAt(decl), w.safes[SafeAt(decl)]);
    SameAsIsSetEquality(ReadOwners(w, SafeAt(decl)).value, decl.Declared());
  }

  /** A Safe's line while it is there, told from its owners: fine when they are
      the declared ones, to be configured when they differ and one signature of
      the deployer's is enough, and otherwise a warning, as is a threshold that
      does not fit 64 bits. */
  lemma OwnersLineMeans(cfg: NetworkConfig, w: World, i: nat)
    requires Valid(cfg) && SafesHealthy(w) && i < |cfg.safes| && SafeAt(cfg.safes[i]) in w.safes
    ensures var status, on := StatusOf(cfg, w, OwnersLine(i)), OwnersOf(w.safes[SafeAt(cfg.safes[i])]);
            var fits, held := on.threshold < 0x1_0000_0000_0000_0000, HoldsDeclared(on, cfg.safes[i]);
            var alone := on.threshold == 1 && cfg.deployer in on.owners;
            && (status == Good <==> fits && held)
            && (status == Configure <==> fits && !held && alone)
            && (status == Warn <==> !fits || (!held && !alone))
  {
    var decl := cfg.safes[i];
    OwnersLineStatus(cfg, w, i);
    if ReadOwners(w, SafeAt(decl)).Some? { SameAsHoldsDeclared(cfg, w, i); }
    OwnersStatusMeans(decl.Declared(), cfg.deployer, ReadOwners(w, SafeAt(decl)));
  }

  lemma OwnersLineStatus(cfg: NetworkConfig, w: World, i: nat)
    requires i < |cfg.safes| && SafeAt(cfg.safes[i]) in w.safes
    ensures var safe, declared := SafeAt(cfg.safes[i]), cfg.safes[i].Declared();
            StatusOf(cfg, w, OwnersLine(i)) == SafeOwnersStatus(declared, cfg.deployer, Some(ReadOwners(w, safe)))
  {
  }

  lemma OwnersStatusMeans(declared: OwnerSet, deployer: Address, read: Option<OwnerSet>)
    ensures var status := SafeOwnersStatus(declared, deployer, Some(read));
            && (status == Good <==> read.Some? && read.value.SameAs(declared))
            && (status == Configure <==> read.Some? && !read.value.SameAs(declared) && read.value.SignsAlone(deployer))
            && (status == Warn <==> read.None? || (!read.value.SameAs(declared) && !read.value.SignsAlone(deployer)))
  {
  }

  /** A Safe's line while it is there: fine or its owners' is kept, the
      deployer's is sent, and a failed read stops the run. */
  lemma OwnersLineIsMove(ctx: Ctx, w: World, i: nat)
    requires i < |ctx.cfg.safes| && SafeAt(ctx.cfg.safes[i]) in w.safes
    ensures var status, move := StatusOf(ctx.cfg, w, OwnersLine(i)), MoveFor(ctx, SafeHandedOver(i), w);
            var read := ReadOwners(w, SafeAt(ctx.cfg.safes[i]));
            && (status == Good <==> read.Some? && read.value.SameAs(ctx.cfg.safes[i].Declared()))
            && (status == Configure <==> move.Send?)
            && (status == Warn <==> read.None? || (move.Keep? && status != Good))
            && (move.Stop? <==> read.None?)
  {
  }

  /** What apply does with that Safe, told from its owners: it stops at a
      threshold it cannot read, leaves alone what is held as declared or by
      others, and hands over the rest. */
  lemma OwnersMoveMeans(ctx: Ctx, w: World, i: nat)
    requires Valid(ctx.cfg) && SafesHealthy(w) && i < |ctx.cfg.safes| && SafeAt(ctx.cfg.safes[i]) in w.safes
    ensures var move, on := MoveFor(ctx, SafeHandedOver(i), w), OwnersOf(w.safes[SafeAt(ctx.cfg.safes[i])]);
            var fits, held := on.threshold < 0x1_0000_0000_0000_0000, HoldsDeclared(on, ctx.cfg.safes[i]);
            var alone := on.threshold == 1 && ctx.cfg.deployer in on.owners;
            && (move.Stop? <==> !fits)
            && (move.Keep? <==> fits && (held || !alone))
            && (move.Send? <==> fits && !held && alone)
  {
    ReadFits(w, SafeAt(ctx.cfg.safes[i]));
    if ReadOwners(w, SafeAt(ctx.cfg.safes[i])).Some? { SameAsHoldsDeclared(ctx.cfg, w, i); }
    SafeMoveMeans(ctx, w, i);
  }

  lemma SafeMoveMeans(ctx: Ctx, w: World, i: nat)
    requires i < |ctx.cfg.safes|
    ensures var move, read := MoveFor(ctx, SafeHandedOver(i), w), ReadOwners(w, SafeAt(ctx.cfg.safes[i]));
            if read.None? then move.Stop?
            else if read.value.SameAs(ctx.cfg.safes[i].Declared()) || !read.value.SignsAlone(ctx.cfg.deployer) then move.Keep?
            else move.Send?
  {
  }

  lemma ReadFits(w: World, safe: Address)
    requires safe in w.safes
    ensures ReadOwners(w, safe) ==
            if OwnersOf(w.safes[safe]).threshold < 0x1_0000_0000_0000_0000 then Some(OwnersOf(w.safes[safe])) else None
  {
  }

  /** Behind a quiet plan every declared Safe is there with exactly the declared
      owners and threshold. */
  lemma QuietPlanHoldsOwners(cfg: NetworkConfig, w: World, i: nat)
    requires Valid(cfg) && SafesHealthy(w) && Quiet(PlanOf(cfg, w)) && i < |cfg.safes|
    ensures SafeAt(cfg.safes[i]) in w.safes && HoldsDeclared(OwnersOf(w.safes[SafeAt(cfg.safes[i])]), cfg.safes[i])
  {
    QuietHasAll(cfg, w);
    QuietCovers(cfg, w, SafeLine(i));
    QuietCovers(cfg, w, OwnersLine(i));
    OwnersLineMeans(cfg, w, i);
  }

  /** The lines without a goal of their own, each told from the chain. */
  lemma CircuitLineMeans(cfg: NetworkConfig, w: World, c: Circuit)
    ensures var status, used := StatusOf(cfg, w, CircuitLine(c)), exists p :: CircuitOf(p) == c && UsesVendored(cfg, w, p);
            var code := CodeAt(w, At(cfg, CircuitVerifier(c, cfg.artifacts.version)));
            var build := match c case BearerLink => cfg.artifacts.bearerLinkBuild case OidcGoogle => cfg.artifacts.oidcGoogleBuild;
            && (status == Good <==> used || code == Some(HonkCode(c, build)))
            && (status == Deploy <==> !used && code.None?)
            && (status == Warn <==> !used && code.Some? && code != Some(HonkCode(c, build)))
  {
    assert CircuitOf(X) == BearerLink && CircuitOf(GitHub) == BearerLink && CircuitOf(Google) == OidcGoogle;
  }

  /** A platform is accepted where the registry reads the declared proof
      verifier and that has some verifier for it. */
  lemma AcceptsLineMeans(cfg: NetworkConfig, w: World, p: Platform)
    ensures StatusOf(cfg, w, AcceptsLine(p)) == Good <==>
            && Answers(w, IdentityRegistry, AcceptsBindings)
            && SlotsOf(w, IdentityRegistry).pointer == cfg.contracts.proofVerifier
            && CeremonyProofVerifier in w.proxies
            && p in SlotsOf(w, CeremonyProofVerifier).versions && SlotsOf(w, CeremonyProofVerifier).versions[p] != 0
  {
  }

  lemma RotationLineMeans(cfg: NetworkConfig, w: World)
    ensures var status := StatusOf(cfg, w, RotationLine);
            var current := Answers(w, GoogleJwtRoots, NeedsRotation) && !SlotsOf(w, GoogleJwtRoots).rotationDue;
            status == if current then Good else Warn
  {
  }

  lemma RecordLineMeans(cfg: NetworkConfig, w: World, n: Name)
    requires w.factory.Some? && Valid(cfg) && IsEntry(n)
    ensures var status, records := StatusOf(cfg, w, RecordLine(n)), w.factory.value.records;
            && (status == Good <==> n in records && records[n] == At(cfg, n))
            && (status == Skipped <==> n !in records || records[n] == 0)
            && (status == Warn <==> n in records && records[n] != 0 && records[n] != At(cfg, n))
  {
    OwnIsPlaced(cfg, n);
  }

  lemma OwnerLineMeans(cfg: NetworkConfig, w: World)
    requires w.factory.Some?
    ensures var status, declared := StatusOf(cfg, w, OwnerLine), cfg.owner;
            && (status == Configure <==> declared.Some? && declared != Some(w.factory.value.owner))
            && (status == Good <==> declared.None? || declared == Some(w.factory.value.owner))
  {
  }

  /** The four contracts of the Safe release, by address and code hash. */
  lemma ReleaseLineMeans(cfg: NetworkConfig, w: World, i: nat)
    ensures StatusOf(cfg, w, ReleaseLine(i)) == Good <==>
            || (i == 0 && CodeAt(w, 0x4e1DCf7AD4e460CfD30791CCC4F9c8a4f820ec67)
                == Some(OtherCode(0x50c3cdc4074750a7a974204a716c999edd37482f907608d960b2b025ee0b3317)))
            || (i == 1 && CodeAt(w, 0x29fcB43b46531BcA003ddC8FCB67FFE91900C762)
                == Some(OtherCode(0xb1f926978a0f44a2c0ec8fe822418ae969bd8c3f18d61e5103100339894f81ff)))
            || (i == 2 && CodeAt(w, 0xfd0732Dc9E303f09fCEf3a7388Ad10A83459Ec99)
                == Some(OtherCode(0x7c6007a5d711cea8dfd5d91f5940ec29c7f200fe511eb1fc1397b367af3c42f9)))
            || (i == 3 && CodeAt(w, 0x9641d764fc13c8B624c04430C7356C1C7C8102e2)
                == Some(OtherCode(0xecd5bd14a08c5d2122379900b2f272bdf107a7e92423c10dd5fe3254386c9939)))
  {
  }

  // ----- A quiet plan -----

  /** What the plan has no line for. */
  predicate GoogleRootsWired(cfg: NetworkConfig, w: World) {
    RootsAt(w) == Some(At(cfg, GoogleJwtRoots))
  }

  lemma QuietStackLineMeets(ctx: Ctx, w: World, g: Goal)
    requires Valid(ctx.cfg) && ctx.sites == Locate(ctx.cfg, w) && StackGoal(g)
    requires LineFor(g).Some? && Covered(ctx.cfg, w, LineFor(g).value) && QuietLine(ctx.cfg, w, LineFor(g).value)
    requires g.Registered? ==> CeremonyProofVerifier in w.proxies
    ensures Met(ctx, g, w)
  {
    if PlainSetting(g) {
      SettingLineIsMove(ctx, w, g);
    } else if g.EscrowBound? || g.Accepting? {
      CheckLineIsMove(ctx, w, g);
    } else if g.TrustRootsSet? {
      TrustRootsLineIsMove(ctx, w, g.platform);
    }
  }

  lemma QuietChainLineMeets(ctx: Ctx, w: World, g: Goal)
    requires !StackGoal(g) && LineFor(g).Some? && w.factory.Some?
    requires Covered(ctx.cfg, w, LineFor(g).value) && QuietLine(ctx.cfg, w, LineFor(g).value)
    ensures Met(ctx, g, w)
  {
  }

  lemma QuietHasAll(cfg: NetworkConfig, w: World)
    requires Quiet(PlanOf(cfg, w))
    ensures w.factory.Some? && (forall n :: IsEntry(n) ==> n in w.proxies)
    ensures cfg.safes != [] ==> HoldsRelease(w)
    ensures w.chainId == cfg.chainId
  {
    QuietCovers(cfg, w, FactoryLine);
    forall n | IsEntry(n) ensures n in w.proxies { QuietCovers(cfg, w, ContractLine(n)); }
    if cfg.safes != [] {
      forall i | 0 <= i < |RELEASE| ensures IsCanonical(w, i) { QuietCovers(cfg, w, ReleaseLine(i)); }
      ReleaseIsCanonical(w);
    }
    if w.chainId != cfg.chainId { QuietCovers(cfg, w, ChainIdLine); }
  }

  lemma QuietNeedsNoFactory(cfg: NetworkConfig, confirm: bool, w: World)
    requires Quiet(PlanOf(cfg, w))
    ensures !NeedsFactory(CtxOf(cfg, confirm, w), w)
  {
    QuietHasAll(cfg, w);
    QuietCovers(cfg, w, CircuitLine(BearerLink));
    QuietCovers(cfg, w, CircuitLine(OidcGoogle));
    forall n | n in ENTRIES ensures n in w.proxies {
      var i :| 0 <= i < |ENTRIES| && ENTRIES[i] == n;
      EntriesAreEntries(i);
    }
  }

  /** The goals of a file without upgrades, in what their lines need. */
  predicate Ordinary(cfg: NetworkConfig, g: Goal) {
    && WellFormed(g) && !g.Upgraded?
    && (g.SafeCreated? ==> g.index < |cfg.safes|) && (g.SafeHandedOver? ==> g.index < |cfg.safes|)
  }

  lemma GoalsAreOrdinary(cfg: NetworkConfig, g: Goal)
    requires g in Goals(cfg, [])
    ensures Ordinary(cfg, g)
  {
    BackShape(cfg);
    SafeGoalsShape(cfg, 0);
    if g in FrontGoals([]) {
      FrontIsOrdinary(cfg, g);
    } else {
      assert g in BackGoals(cfg);
    }
  }

  lemma FrontIsOrdinary(cfg: NetworkConfig, g: Goal)
    requires g in FrontGoals([])
    ensures Ordinary(cfg, g)
  {
    assert g in INSTALL || g == FactoryOwned || g in StackGoals([]);
    if g in StackGoals([]) {
      StackShape([]);
      assert Shaped([], g);
    }
  }

  lemma QuietMeets(cfg: NetworkConfig, confirm: bool, w: World, g: Goal)
    requires Valid(cfg) && Quiet(PlanOf(cfg, w)) && Ordinary(cfg, g) && g != GoogleRootsRead
    ensures Met(CtxOf(cfg, confirm, w), g, w)
  {
    var ctx := CtxOf(cfg, confirm, w);
    QuietHasAll(cfg, w);
    if g.FactoryOwned? {
      QuietNeedsNoFactory(cfg, confirm, w);
    } else if g.RecipientSet? && cfg.feeRecipient.None? {
    } else if LineFor(g).Some? {
      QuietCovers(cfg, w, LineFor(g).value);
      if StackGoal(g) { QuietStackLineMeets(ctx, w, g); } else { QuietChainLineMeets(ctx, w, g); }
    }
  }

  lemma RootsReadMeans(ctx: Ctx, w: World)
    ensures Met(ctx, GoogleRootsRead, w) <==> GoogleRootsWired(ctx.cfg, w)
  {
  }

  lemma RootsReadIsAGoal(cfg: NetworkConfig)
    ensures GoogleRootsRead in Goals(cfg, [])
  {
    assert GoogleRootsRead in PlatformSection([], Google);
    StackGoalsAreGoals(cfg, [], PlatformSection([], Google), GoogleRootsRead);
  }

  lemma QuietSettles(cfg: NetworkConfig, confirm: bool, w: World)
    requires Valid(cfg) && Quiet(PlanOf(cfg, w)) && GoogleRootsWired(cfg, w)
    ensures Settled(CtxOf(cfg, confirm, w), w)
  {
    var ctx := CtxOf(cfg, confirm, w);
    forall g | g in Goals(cfg, []) ensures Met(ctx, g, w) {
      GoalsAreOrdinary(cfg, g);
      if g == GoogleRootsRead { RootsReadMeans(ctx, w); } else { QuietMeets(cfg, confirm, w, g); }
    }
  }

  /** After a quiet plan a run succeeds and sends nothing exactly when the
      Google verifier reads the declared root list, which no line shows. */
  lemma QuietPlanQuietRun(cfg: NetworkConfig, confirm: bool, w: World)
    requires Valid(cfg) && RecordsHold(cfg, w) && Quiet(PlanOf(cfg, w))
    ensures Converging(cfg, confirm, w) == Idle(w) <==> GoogleRootsWired(cfg, w)
  {
    var ctx := CtxOf(cfg, confirm, w);
    RootsReadMeans(ctx, w);
    if GoogleRootsWired(cfg, w) {
      QuietSettles(cfg, confirm, w);
      MetRunIsIdle(ctx, Goals(cfg, []), w);
    } else if Converging(cfg, confirm, w) == Idle(w) {
      IdleReadsRoots(ctx, w);
    }
  }

  lemma IdleReadsRoots(ctx: Ctx, w: World)
    requires RecordsHold(ctx.cfg, w) && Located(ctx) && Run(ctx, Goals(ctx.cfg, []), w) == Idle(w)
    ensures Met(ctx, GoogleRootsRead, w)
  {
    GoalsAreOrdered(ctx, [], w);
    RootsReadIsAGoal(ctx.cfg);
    IdleMeetsAll(ctx, Goals(ctx.cfg, []), w, GoogleRootsRead);
  }

  // ----- The pointer without a line -----

  function WithGoogleRoots(w: World, roots: Address): World
    requires PlatformVerifier(Google) in w.proxies
  {
    var google := w.proxies[PlatformVerifier(Google)];
    w.(proxies := w.proxies[PlatformVerifier(Google) := google.(slots := google.slots.(roots := roots))])
  }

  /** The same chain but for where Google's verifier reads its roots. */
  predicate SameButRoots(w: World, other: World) {
    && PlatformVerifier(Google) in w.proxies && PlatformVerifier(Google) in other.proxies
    && other == WithGoogleRoots(w, other.proxies[PlatformVerifier(Google)].slots.roots)
  }

  lemma CoveredIgnoresRoots(cfg: NetworkConfig, w: World, other: World, line: Line)
    requires SameButRoots(w, other)
    ensures Covered(cfg, other, line) == Covered(cfg, w, line)
  {
  }

  lemma CircuitStatusIgnoresRoots(cfg: NetworkConfig, w: World, other: World, line: Line)
    requires SameButRoots(w, other) && (line.CircuitLine? || line.TrustRootsLine?)
    ensures StatusOf(cfg, other, line) == StatusOf(cfg, w, line)
  {
    assert forall p :: UsesVendored(cfg, other, p) == UsesVendored(cfg, w, p);
    assert forall c :: SiteOf(cfg, other, c) == SiteOf(cfg, w, c);
  }

  lemma StatusIgnoresRoots(cfg: NetworkConfig, w: World, other: World, line: Line)
    requires SameButRoots(w, other)
    ensures StatusOf(cfg, other, line) == StatusOf(cfg, w, line)
  {
    if line.CircuitLine? || line.TrustRootsLine? { CircuitStatusIgnoresRoots(cfg, w, other, line); }
  }

  lemma QuietIgnoresRoots(cfg: NetworkConfig, w: World, roots: Address)
    requires PlatformVerifier(Google) in w.proxies
    requires RecordsHold(cfg, w) && Quiet(PlanOf(cfg, w))
    ensures RecordsHold(cfg, WithGoogleRoots(w, roots)) && Quiet(PlanOf(cfg, WithGoogleRoots(w, roots)))
  {
    var other := WithGoogleRoots(w, roots);
    forall item | item in PlanOf(cfg, other) ensures item.status.Good? || item.status.Skipped? {
      PlanHolds(cfg, other, item);
      PlanCovers(cfg, other, item.line);
      CoveredIgnoresRoots(cfg, w, other, item.line);
      StatusIgnoresRoots(cfg, w, other, item.line);
      QuietCovers(cfg, w, item.line);
    }
    assert forall n :: Present(cfg, other, n) == Present(cfg, w, n);
  }

  // ----- The run behind a quiet plan -----

  /** A run of goals all met but one is the run of that one. */
  lemma {:induction false} OnlyOneUnmet(ctx: Ctx, goals: seq<Goal>, g: Goal, w: World)
    requires g in goals && (forall h :: h in goals && h != g ==> Met(ctx, h, w))
    requires Perform(ctx, g, w).ok ==> forall h :: h in goals ==> Met(ctx, h, Perform(ctx, g, w).world)
    ensures Run(ctx, goals, w) == Perform(ctx, g, w)
    decreases |goals|
  {
    var first, rest := Perform(ctx, goals[0], w), goals[1..];
    assert goals[0] in goals;
    assert forall h :: h in rest ==> h in goals;
    if goals[0] != g {
      KeptRun(ctx, goals, w);
      OnlyOneUnmet(ctx, rest, g, w);
    } else if first.ok {
      MetRunIsIdle(ctx, rest, first.world);
      ThenIdle(first, first.world);
    }
  }

  /** Whether the Google verifier takes the declared root list. */
  predicate TakesRoots(cfg: NetworkConfig, w: World) {
    && Answers(w, PlatformVerifier(Google), JwtRoots) && Answers(w, PlatformVerifier(Google), SetJwtRoots)
    && w.proxies[PlatformVerifier(Google)].owner == cfg.deployer
  }

  /** The one transaction that repairs the pointer. */
  function RootsRepair(cfg: NetworkConfig): Tx {
    SetOn(PlatformVerifier(Google), ReadRootsFrom(At(cfg, GoogleJwtRoots)))
  }

  lemma UnwiredMove(ctx: Ctx, w: World)
    requires !GoogleRootsWired(ctx.cfg, w)
    ensures Perform(ctx, GoogleRootsRead, w) ==
            if TakesRoots(ctx.cfg, w)
            then Outcome(true, Apply(ctx.cfg, RootsRepair(ctx.cfg), w).value, [RootsRepair(ctx.cfg)], [], [])
            else Failed(w, [])
    ensures TakesRoots(ctx.cfg, w) ==>
            && Apply(ctx.cfg, RootsRepair(ctx.cfg), w).Some?
            && MoveFor(ctx, GoogleRootsRead, w) == Send([RootsRepair(ctx.cfg)])
  {
    if Answers(w, PlatformVerifier(Google), JwtRoots) {
      PerformsOne(ctx, GoogleRootsRead, w, RootsRepair(ctx.cfg));
    }
  }

  lemma RepairMeetsAll(cfg: NetworkConfig, confirm: bool, w: World, h: Goal)
    requires Valid(cfg) && Quiet(PlanOf(cfg, w)) && !GoogleRootsWired(cfg, w) && TakesRoots(cfg, w)
    requires h in Goals(cfg, [])
    ensures Apply(cfg, RootsRepair(cfg), w).Some?
    ensures Met(CtxOf(cfg, confirm, w), h, Apply(cfg, RootsRepair(cfg), w).value)
  {
    var ctx := CtxOf(cfg, confirm, w);
    UnwiredMove(ctx, w);
    GoalsAreOrdinary(cfg, h);
    var w' := Apply(cfg, RootsRepair(cfg), w).value;
    if h == GoogleRootsRead {
      ActMeets(ctx, h, w, w');
    } else {
      QuietMeets(cfg, confirm, w, h);
      ActKeeps(ctx, h, GoogleRootsRead, w, RootsRepair(cfg), w');
    }
  }

  /** After a quiet plan a run with the pointer elsewhere sends exactly its
      repair, where the verifier takes it, and otherwise stops without sending. */
  lemma UnwiredRun(cfg: NetworkConfig, confirm: bool, w: World)
    requires Valid(cfg) && Quiet(PlanOf(cfg, w)) && !GoogleRootsWired(cfg, w)
    ensures TakesRoots(cfg, w) ==> Apply(cfg, RootsRepair(cfg), w).Some?
    ensures Converging(cfg, confirm, w) ==
            if TakesRoots(cfg, w)
            then Outcome(true, Apply(cfg, RootsRepair(cfg), w).value, [RootsRepair(cfg)], [], [])
            else Failed(w, [])
  {
    var ctx, goals := CtxOf(cfg, confirm, w), Goals(cfg, []);
    UnwiredMove(ctx, w);
    RootsReadIsAGoal(cfg);
    forall h | h in goals && h != GoogleRootsRead ensures Met(ctx, h, w) {
      GoalsAreOrdinary(cfg, h);
      QuietMeets(cfg, confirm, w, h);
    }
    if TakesRoots(cfg, w) {
      forall h | h in goals ensures Met(ctx, h, Apply(cfg, RootsRepair(cfg), w).value) {
        RepairMeetsAll(cfg, confirm, w, h);
      }
    }
    OnlyOneUnmet(ctx, goals, GoogleRootsRead, w);
  }

  /** Every quiet plan is as quiet with the pointer moved, and the run then
      repairs it in one transaction or stops. */
  lemma QuietPlanMissesTheRoots(cfg: NetworkConfig, confirm: bool, w: World, roots: Address)
    requires Valid(cfg) && RecordsHold(cfg, w) && Quiet(PlanOf(cfg, w)) && roots != At(cfg, GoogleJwtRoots)
    requires PlatformVerifier(Google) in w.proxies
    ensures var moved := WithGoogleRoots(w, roots);
            && Quiet(PlanOf(cfg, moved))
            && Converging(cfg, confirm, moved).ok == TakesRoots(cfg, w)
            && Converging(cfg, confirm, moved).trace == if TakesRoots(cfg, w) then [RootsRepair(cfg)] else []
  {
    QuietIgnoresRoots(cfg, w, roots);
    UnwiredRun(cfg, confirm, WithGoogleRoots(w, roots));
  }

  // ----- A quiet run -----

  /** Lines apply leaves as they are. */
  predicate LeftAlone(line: Line, status: Status) {
    match line
    case ChainIdLine => status == Warn
    case RotationLine => status == Warn
    case CircuitLine(_) => status == Warn
    case TrustRootsLine(_) => status == Warn
    case RecordLine(_) => status == Skipped
    case OwnerLine => status == Configure
    case OwnersLine(_) => status == Warn
    case _ => false
  }

  lemma MetStackLine(ctx: Ctx, w: World, g: Goal)
    requires Valid(ctx.cfg) && ctx.sites == Locate(ctx.cfg, w) && StackGoal(g) && Met(ctx, g, w)
    requires LineFor(g).Some? && Covered(ctx.cfg, w, LineFor(g).value)
    ensures var line := LineFor(g).value;
            StatusOf(ctx.cfg, w, line) == Good || LeftAlone(line, StatusOf(ctx.cfg, w, line))
  {
    if PlainSetting(g) {
      SettingLineIsMove(ctx, w, g);
    } else if g.EscrowBound? || g.Accepting? {
      CheckLineIsMove(ctx, w, g);
    } else if g.TrustRootsSet? {
      TrustRootsLineIsMove(ctx, w, g.platform);
    }
  }

  /** The goal a line predicts. */
  function GoalFor(line: Line): Option<Goal> {
    match line
    case Create2Line => Some(Create2DeployerInstalled)
    case FactoryLine => Some(FactoryInstalled)
    case ContractLine(n) => Some(Deployed(n))
    case SignerLine => Some(NotaryTrusted)
    case FeeLine => Some(FeeCharged)
    case RecipientLine => Some(RecipientSet)
    case RegistryLine => Some(RegistryWired)
    case EscrowLine => Some(EscrowBound)
    case RootsLine => Some(RootsWired)
    case CircuitLine(c) => Some(CircuitDeployed(c))
    case TrustRootsLine(p) => Some(TrustRootsSet(p))
    case RegistrationLine(p) => Some(Registered(p))
    case AcceptsLine(p) => Some(Accepting(p))
    case SafeLine(i) => Some(SafeCreated(i))
    case OwnersLine(i) => Some(SafeHandedOver(i))
    case _ => None
  }

  lemma MetChainLine(ctx: Ctx, w: World, g: Goal)
    requires !StackGoal(g) && Met(ctx, g, w) && !g.FreshDeployConfirmed?
    requires LineFor(g).Some? && Covered(ctx.cfg, w, LineFor(g).value)
    ensures var line := LineFor(g).value;
            StatusOf(ctx.cfg, w, line) == Good || LeftAlone(line, StatusOf(ctx.cfg, w, line))
  {
  }

  lemma LineWithoutGoal(cfg: NetworkConfig, w: World, line: Line)
    requires RecordsHold(cfg, w) && (cfg.safes != [] ==> HoldsRelease(w))
    requires Covered(cfg, w, line) && GoalFor(line).None?
    ensures StatusOf(cfg, w, line) == Good || LeftAlone(line, StatusOf(cfg, w, line))
  {
    if line.ReleaseLine? { ReleaseIsCanonical(w); }
  }

  lemma LineForGoalFor(line: Line)
    requires GoalFor(line).Some?
    ensures LineFor(GoalFor(line).value) == Some(line)
  {
  }

  lemma GoalForIsAGoal(cfg: NetworkConfig, w: World, line: Line)
    requires Covered(cfg, w, line) && GoalFor(line).Some?
    ensures GoalFor(line).value in Goals(cfg, []) && LineFor(GoalFor(line).value) == Some(line)
  {
    var g := GoalFor(line).value;
    LineForGoalFor(line);
    match g {
      case Create2DeployerInstalled => assert g in INSTALL && g in FrontGoals([]);
      case FactoryInstalled => FactoryGoalsAreGoals(cfg, []);
      case SafeCreated(i) => EverySafeHasGoals(cfg, 0, i);
      case SafeHandedOver(i) => EverySafeHasGoals(cfg, 0, i);
      case Deployed(_) => NeededIsInFront(g, []);
      case CircuitDeployed(_) => NeededIsInFront(g, []);
      case _ => StackLineIsAGoal(cfg, g);
    }
  }

  lemma StackLineIsAGoal(cfg: NetworkConfig, g: Goal)
    requires PlainSetting(g) || g.EscrowBound? || g.TrustRootsSet? || g.Accepting?
    ensures g in Goals(cfg, [])
  {
    var section := match g
      case NotaryTrusted => NotarySection([])
      case FeeCharged => NotarySection([])
      case RecipientSet => NotarySection([])
      case RegistryWired => RegistrySection([])
      case EscrowBound => EscrowSection([])
      case RootsWired => RootsSection([])
      case TrustRootsSet(p) => PlatformSection([], p)
      case Registered(p) => PlatformSection([], p)
      case _ => ACCEPTING;
    if g.Accepting? { OneOfThree(g.platform); }
    StackGoalsAreGoals(cfg, [], section, g);
  }

  lemma IdleHoldsRelease(ctx: Ctx, w: World)
    requires RecordsHold(ctx.cfg, w) && Located(ctx) && Run(ctx, Goals(ctx.cfg, []), w) == Idle(w)
    ensures ctx.cfg.safes != [] ==> HoldsRelease(w)
  {
    GoalsAreOrdered(ctx, [], w);
    ReleaseCheckIsAGoal(ctx.cfg);
    IdleMeetsAll(ctx, Goals(ctx.cfg, []), w, SafeReleaseChecked);
    ReleaseCheckMeans(ctx, w);
  }

  lemma ReleaseCheckIsAGoal(cfg: NetworkConfig)
    ensures SafeReleaseChecked in Goals(cfg, [])
  {
    assert (OWNERSHIP + [SafeReleaseChecked])[2] == SafeReleaseChecked;
    assert SafeReleaseChecked in BackGoals(cfg);
  }

  lemma ReleaseCheckMeans(ctx: Ctx, w: World)
    requires Met(ctx, SafeReleaseChecked, w)
    ensures ctx.cfg.safes != [] ==> HoldsRelease(w)
  {
  }

  lemma IdleLine(cfg: NetworkConfig, confirm: bool, w: World, line: Line)
    requires Valid(cfg) && RecordsHold(cfg, w) && Converging(cfg, confirm, w) == Idle(w)
    requires Covered(cfg, w, line)
    ensures StatusOf(cfg, w, line) == Good || LeftAlone(line, StatusOf(cfg, w, line))
  {
    var ctx := CtxOf(cfg, confirm, w);
    if GoalFor(line).None? {
      IdleHoldsRelease(ctx, w);
      LineWithoutGoal(cfg, w, line);
    } else {
      var g := GoalFor(line).value;
      GoalForIsAGoal(cfg, w, line);
      GoalsAreOrdered(ctx, [], w);
      IdleMeetsAll(ctx, Goals(cfg, []), w, g);
      if StackGoal(g) { MetStackLine(ctx, w, g); } else { MetChainLine(ctx, w, g); }
    }
  }

  lemma IdleItem(cfg: NetworkConfig, confirm: bool, w: World, item: Item)
    requires Valid(cfg) && RecordsHold(cfg, w) && Converging(cfg, confirm, w) == Idle(w)
    requires item in PlanOf(cfg, w)
    ensures item.status == Good || LeftAlone(item.line, item.status)
  {
    PlanHolds(cfg, w, item);
    PlanCovers(cfg, w, item.line);
    IdleLine(cfg, confirm, w, item.line);
  }

  lemma NothingLeftDeploys(items: seq<Item>)
    requires forall item :: item in items ==> item.status == Good || LeftAlone(item.line, item.status)
    ensures !HasDeploys(items)
  {
  }

  /** A run that finds nothing to do leaves a plan without deployments, whose
      only remarks are ones apply never acts on: a due rotation, a stale pin
      or foreign verifier code no contract needs replaced, a factory or a Safe
      its owners hold. */
  lemma QuietRunQuietPlan(cfg: NetworkConfig, confirm: bool, w: World)
    requires Valid(cfg) && RecordsHold(cfg, w) && Converging(cfg, confirm, w) == Idle(w)
    ensures forall item :: item in PlanOf(cfg, w) ==> item.status == Good || LeftAlone(item.line, item.status)
    ensures !HasDeploys(PlanOf(cfg, w))
  {
    forall item | item in PlanOf(cfg, w) ensures item.status == Good || LeftAlone(item.line, item.status) {
      IdleItem(cfg, confirm, w, item);
    }
    NothingLeftDeploys(PlanOf(cfg, w));
  }
}
