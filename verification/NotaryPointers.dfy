/** The notary a Platform Verifier points at: no goal and no line looks at it,
    no transaction of a run changes it, and a rotation hands it back as found. */
module NotaryPointers {
  import opened Prelude
  import opened Config
  import opened Worlds
  import opened Converge
  import opened Stability
  import opened Recovery
  import opened Sites
  import opened Convergence
  import opened GoalState
  import opened Flow
  import opened Rotation
  import opened Checks
  import opened Plan

  // ----- A run leaves it as found -----

  /** The notary a proxy has throughout a run: the one found on the chain, or
      the one its initializer gets. */
  function FirstNotary(ctx: Ctx, w: World, n: Name): Address {
    if n in w.proxies then SlotsOf(w, n).notary else InitialSlots(ctx, n).notary
  }

  ghost predicate NotariesAsFirst(ctx: Ctx, w: World, end: World) {
    && (forall n :: n in w.proxies ==> n in end.proxies)
    && forall n :: n in end.proxies ==> SlotsOf(end, n).notary == FirstNotary(ctx, w, n)
  }

  lemma DeploysItsOwn(ctx: Ctx, g: Goal, w: World)
    requires MoveFor(ctx, g, w).Send? && Act(ctx, g, w).DeployProxy?
    ensures var tx := Act(ctx, g, w); g == Deployed(tx.name) && tx.slots == InitialSlots(ctx, tx.name)
  {
  }

  lemma DeployKeepsNotaries(ctx: Ctx, n: Name, slots: Slots, w: World, w': World)
    requires slots == InitialSlots(ctx, n) && Apply(ctx.cfg, DeployProxy(n, slots), w) == Some(w')
    ensures NotariesAsFirst(ctx, w, w')
  {
  }

  lemma SetterKeepsNotaries(ctx: Ctx, n: Name, change: Change, w: World, w': World)
    requires n in w.proxies && (change.VerifyWith? ==> change.notary == SlotsOf(w, n).notary)
    requires Apply(ctx.cfg, SetOn(n, change), w) == Some(w')
    ensures NotariesAsFirst(ctx, w, w')
  {
  }

  lemma OtherTxKeepsNotaries(ctx: Ctx, tx: Tx, w: World, w': World)
    requires !tx.DeployProxy? && !tx.SetOn? && Apply(ctx.cfg, tx, w) == Some(w')
    ensures NotariesAsFirst(ctx, w, w')
  {
  }

  lemma ActKeepsNotaries(ctx: Ctx, g: Goal, w: World, w': World)
    requires MoveFor(ctx, g, w).Send? && Apply(ctx.cfg, Act(ctx, g, w), w) == Some(w')
    ensures NotariesAsFirst(ctx, w, w')
  {
    var tx := Act(ctx, g, w);
    if tx.DeployProxy? {
      DeploysItsOwn(ctx, g, w);
      DeployKeepsNotaries(ctx, tx.name, tx.slots, w, w');
    } else if tx.SetOn? {
      if HandsNotaryBack(tx) { NotaryAsStored(ctx, g, w); }
      SetterKeepsNotaries(ctx, tx.name, tx.change, w, w');
    } else {
      OtherTxKeepsNotaries(ctx, tx, w, w');
    }
  }

  lemma PerformKeepsNotaries(ctx: Ctx, g: Goal, w: World)
    ensures NotariesAsFirst(ctx, w, Perform(ctx, g, w).world)
  {
    if MoveFor(ctx, g, w).Send? {
      PerformedWorld(ctx, g, w);
      var next := Apply(ctx.cfg, Act(ctx, g, w), w);
      if next.Some? { ActKeepsNotaries(ctx, g, w, next.value); }
    }
  }

  lemma NotariesFollow(ctx: Ctx, a: World, b: World, c: World)
    requires NotariesAsFirst(ctx, a, b) && NotariesAsFirst(ctx, b, c)
    ensures NotariesAsFirst(ctx, a, c)
  {
  }

  /** A run, finished or not, repairs no notary pointer and spoils none. */
  lemma {:induction false} RunKeepsNotaries(ctx: Ctx, goals: seq<Goal>, w: World)
    ensures NotariesAsFirst(ctx, w, Run(ctx, goals, w).world)
    decreases |goals|
  {
    if goals != [] {
      var first := Perform(ctx, goals[0], w);
      RunTrace(ctx, goals, w);
      PerformKeepsNotaries(ctx, goals[0], w);
      if first.ok {
        RunKeepsNotaries(ctx, goals[1..], first.world);
        NotariesFollow(ctx, w, first.world, Run(ctx, goals[1..], first.world).world);
      }
    }
  }

  /** A platform a run has put on the chain points at the declared Notary
      Service, or at none where it notarizes nothing, from then on. */
  lemma FreshPlatformsPoint(cfg: NetworkConfig, sender: Address, opts: Options, w: World, p: Platform)
    requires PlatformVerifier(p) !in w.proxies
    requires PlatformVerifier(p) in RunAll(cfg, sender, opts, w).world.proxies
    ensures SlotsOf(RunAll(cfg, sender, opts, w).world, PlatformVerifier(p)).notary
            == if p.Google? then 0 else cfg.contracts.notaryService
  {
    RunKeepsNotaries(CtxOf(cfg, opts.confirmFreshDeploy, w), Goals(cfg, opts.upgrades), w);
  }

  /** What a rotation of `p` sends. */
  predicate RotatesAs(ctx: Ctx, w: World, p: Platform, tx: Tx) {
    Rotates(tx, p) ==> tx.change == VerifyWith(FirstNotary(ctx, w, PlatformVerifier(p)), ctx.CircuitAt(p))
  }

  lemma PerformRotatesAs(ctx: Ctx, p: Platform, g: Goal, w: World, tx: Tx)
    requires tx in Perform(ctx, g, w).trace
    ensures RotatesAs(ctx, w, p, tx)
  {
    if MoveFor(ctx, g, w).Send? {
      SendShape(ctx, g, w);
      SentInPart(ctx, g, w);
      if HandsNotaryBack(Act(ctx, g, w)) { NotaryAsStored(ctx, g, w); }
    }
  }

  /** Every rotation of a run moves the platform onto the located verifier and
      hands it the notary found on the chain. */
  lemma {:induction false} RunRotatesAs(ctx: Ctx, p: Platform, goals: seq<Goal>, w: World, tx: Tx)
    requires tx in Run(ctx, goals, w).trace
    ensures RotatesAs(ctx, w, p, tx)
    decreases |goals|
  {
    if goals != [] {
      var first := Perform(ctx, goals[0], w);
      RunTrace(ctx, goals, w);
      if tx in first.trace {
        PerformRotatesAs(ctx, p, goals[0], w, tx);
      } else {
        RunRotatesAs(ctx, p, goals[1..], first.world, tx);
        PerformKeepsNotaries(ctx, goals[0], w);
        RotatesAsBefore(ctx, p, w, first.world, tx);
      }
    }
  }

  lemma RotatesAsBefore(ctx: Ctx, p: Platform, w: World, later: World, tx: Tx)
    requires NotariesAsFirst(ctx, w, later) && RotatesAs(ctx, later, p, tx)
    ensures RotatesAs(ctx, w, p, tx)
  {
  }

  // ----- Whether it dangles, told before the run -----

  /** The goals put code at `a`, or found it there. */
  ghost predicate Brought(ctx: Ctx, goals: seq<Goal>, a: Address) {
    exists g :: g in goals && PutsCodeAt(ctx, g, a)
  }

  predicate PutsCodeAt(ctx: Ctx, g: Goal, a: Address) {
    || (g.Deployed? && IsEntry(g.name) && At(ctx.cfg, g.name) == a)
    || (g.CircuitDeployed? && ctx.sites.Of(g.circuit).address == a)
  }

  lemma ActBrings(ctx: Ctx, g: Goal, w: World, w': World, a: Address)
    requires Located(ctx) && WellFormed(g) && MoveFor(ctx, g, w).Send?
    requires Apply(ctx.cfg, Act(ctx, g, w), w) == Some(w') && HoldsCode(ctx.cfg, w', a)
    ensures HoldsCode(ctx.cfg, w, a) || PutsCodeAt(ctx, g, a)
  {
    if a in w'.code {
      if a !in w.code {
        NewCode(ctx.cfg, Act(ctx, g, w), w, w', a);
        DeploysItsCircuit(ctx, g, w);
      }
    } else {
      var n :| n in w'.proxies && IsEntry(n) && At(ctx.cfg, n) == a;
      if n !in w.proxies {
        NewProxyIsDeployed(ctx.cfg, Act(ctx, g, w), w, w', n);
        DeploysItsOwn(ctx, g, w);
      }
    }
  }

  lemma DeploysItsCircuit(ctx: Ctx, g: Goal, w: World)
    requires Located(ctx) && MoveFor(ctx, g, w).Send? && Act(ctx, g, w).DeployCircuit?
    ensures var c := Act(ctx, g, w).circuit;
            g == CircuitDeployed(c) && ctx.sites.Of(c).address == At(ctx.cfg, OwnVerifier(ctx.cfg, c))
  {
  }

  lemma NewProxyIsDeployed(cfg: NetworkConfig, tx: Tx, w: World, w': World, n: Name)
    requires Apply(cfg, tx, w) == Some(w') && n !in w.proxies && n in w'.proxies
    ensures tx.DeployProxy? && tx.name == n
  {
  }

  lemma {:induction false} RunBrings(ctx: Ctx, goals: seq<Goal>, w: World, a: Address)
    requires Located(ctx) && (forall g :: g in goals ==> WellFormed(g))
    requires HoldsCode(ctx.cfg, Run(ctx, goals, w).world, a)
    ensures HoldsCode(ctx.cfg, w, a) || Brought(ctx, goals, a)
    decreases |goals|
  {
    if goals != [] {
      var g, first := goals[0], Perform(ctx, goals[0], w);
      assert g in goals && forall h :: h in goals[1..] ==> h in goals;
      RunTrace(ctx, goals, w);
      if first.ok { RunBrings(ctx, goals[1..], first.world, a); }
      if HoldsCode(ctx.cfg, first.world, a) && MoveFor(ctx, g, w).Send? {
        PerformedWorld(ctx, g, w);
        if Apply(ctx.cfg, Act(ctx, g, w), w).Some? { ActBrings(ctx, g, w, first.world, a); }
      }
    }
  }

  lemma CodeOnlyGrows(cfg: NetworkConfig, tx: Tx, w: World, w': World, a: Address)
    requires Apply(cfg, tx, w) == Some(w') && HoldsCode(cfg, w, a)
    ensures HoldsCode(cfg, w', a)
  {
    CodeStays(cfg, tx, w, w');
    ProxiesStay(cfg, tx, w, w');
  }

  lemma ProxiesStay(cfg: NetworkConfig, tx: Tx, w: World, w': World)
    requires Apply(cfg, tx, w) == Some(w')
    ensures w.proxies.Keys <= w'.proxies.Keys
  {
  }

  lemma {:induction false} RunOnlyGrows(ctx: Ctx, goals: seq<Goal>, w: World, a: Address)
    requires HoldsCode(ctx.cfg, w, a)
    ensures HoldsCode(ctx.cfg, Run(ctx, goals, w).world, a)
    decreases |goals|
  {
    if goals != [] {
      var g, first := goals[0], Perform(ctx, goals[0], w);
      RunTrace(ctx, goals, w);
      if MoveFor(ctx, g, w).Send? {
        PerformedWorld(ctx, g, w);
        if Apply(ctx.cfg, Act(ctx, g, w), w).Some? { CodeOnlyGrows(ctx.cfg, Act(ctx, g, w), w, first.world, a); }
      }
      if first.ok { RunOnlyGrows(ctx, goals[1..], first.world, a); }
    }
  }

  lemma MetHasBrought(ctx: Ctx, g: Goal, w: World, end: World, a: Address)
    requires ctx.sites == Locate(ctx.cfg, w) && PutsCodeAt(ctx, g, a) && Met(ctx, g, end)
    requires forall b :: HoldsCode(ctx.cfg, w, b) ==> HoldsCode(ctx.cfg, end, b)
    ensures HoldsCode(ctx.cfg, end, a)
  {
    if g.CircuitDeployed? && ctx.sites.Of(g.circuit).InUse? { assert a in w.code && HoldsCode(ctx.cfg, w, a); }
  }

  /** What holds code when a run gets to a goal: what held it at the start, and
      what the goals so far deploy. */
  lemma CodeOnArrival(cfg: NetworkConfig, opts: Options, w: World, i: nat, at: World, a: Address)
    requires Valid(cfg) && RecordsHold(cfg, w) && Reaches(cfg, opts, w, i, at)
    ensures HoldsCode(cfg, at, a) <==>
            HoldsCode(cfg, w, a)
            || Brought(CtxOf(cfg, opts.confirmFreshDeploy, w), Goals(cfg, opts.upgrades)[..i], a)
  {
    var ctx, done := CtxOf(cfg, opts.confirmFreshDeploy, w), Goals(cfg, opts.upgrades)[..i];
    forall b | HoldsCode(cfg, w, b) ensures HoldsCode(cfg, at, b) { RunOnlyGrows(ctx, done, w, b); }
    if HoldsCode(cfg, at, a) {
      forall g | g in done ensures WellFormed(g) { PlainIsWellFormed(cfg, opts.upgrades, g); }
      RunBrings(ctx, done, w, a);
    } else if Brought(ctx, done, a) {
      var g :| g in done && PutsCodeAt(ctx, g, a);
      PassedIsMet(cfg, opts, w, i, at, g);
      MetHasBrought(ctx, g, w, at, a);
    }
  }

  /** Told from the chain the run starts on: the notary found there is none,
      holds code, or is deployed by the goals before the rotation. */
  ghost predicate NotaryForeseen(cfg: NetworkConfig, opts: Options, w: World, i: nat, n: Name)
    requires i <= |Goals(cfg, opts.upgrades)|
  {
    var ctx := CtxOf(cfg, opts.confirmFreshDeploy, w);
    var a := FirstNotary(ctx, w, n);
    a == ZERO || HoldsCode(cfg, w, a) || Brought(ctx, Goals(cfg, opts.upgrades)[..i], a)
  }

  lemma NotaryOnArrival(cfg: NetworkConfig, opts: Options, w: World, i: nat, at: World, n: Name)
    requires Valid(cfg) && RecordsHold(cfg, w) && Reaches(cfg, opts, w, i, at) && n in at.proxies
    ensures NotaryHolds(cfg, at, n) <==> NotaryForeseen(cfg, opts, w, i, n)
  {
    var ctx := CtxOf(cfg, opts.confirmFreshDeploy, w);
    RunKeepsNotaries(ctx, Goals(cfg, opts.upgrades)[..i], w);
    CodeOnArrival(cfg, opts, w, i, at, FirstNotary(ctx, w, n));
  }

  /** Whether the run hands on an address without code, from the chain it
      starts on. */
  lemma WiringForeseen(cfg: NetworkConfig, opts: Options, w: World, i: nat, at: World)
    requires Valid(cfg) && RecordsHold(cfg, w) && Reaches(cfg, opts, w, i, at)
    requires MoveFor(CtxOf(cfg, opts.confirmFreshDeploy, w), Goals(cfg, opts.upgrades)[i], at).Send?
    ensures var tx := Act(CtxOf(cfg, opts.confirmFreshDeploy, w), Goals(cfg, opts.upgrades)[i], at);
            (forall a :: a in Passed(tx) ==> HoldsCode(cfg, at, a)) <==>
            (HandsNotaryBack(tx) ==> NotaryForeseen(cfg, opts, w, i, tx.name))
  {
    var ctx, g := CtxOf(cfg, opts.confirmFreshDeploy, w), Goals(cfg, opts.upgrades)[i];
    NoDanglingWiring(cfg, opts, w, i, at);
    if HandsNotaryBack(Act(ctx, g, at)) {
      NotaryAsStored(ctx, g, at);
      NotaryOnArrival(cfg, opts, w, i, at, Act(ctx, g, at).name);
    }
  }

  /** In particular on every chain whose platforms point at the declared Notary
      Service, at none or at code. */
  lemma NothingDanglesFrom(cfg: NetworkConfig, opts: Options, w: World, i: nat, at: World)
    requires Valid(cfg) && RecordsHold(cfg, w) && Reaches(cfg, opts, w, i, at)
    requires MoveFor(CtxOf(cfg, opts.confirmFreshDeploy, w), Goals(cfg, opts.upgrades)[i], at).Send?
    requires forall p :: PlatformVerifier(p) in w.proxies ==>
      NotaryHolds(cfg, w, PlatformVerifier(p)) || SlotsOf(w, PlatformVerifier(p)).notary == At(cfg, NotaryService)
    ensures forall a :: a in Passed(Act(CtxOf(cfg, opts.confirmFreshDeploy, w), Goals(cfg, opts.upgrades)[i], at)) ==>
              HoldsCode(cfg, at, a)
  {
    var ctx, goals := CtxOf(cfg, opts.confirmFreshDeploy, w), Goals(cfg, opts.upgrades);
    WiringForeseen(cfg, opts, w, i, at);
    if HandsNotaryBack(Act(ctx, goals[i], at)) {
      NotaryAsStored(ctx, goals[i], at);
      ServiceIsBrought(cfg, opts, w, i);
      FreshNotary(ctx, goals[i].platform);
    }
  }

  lemma FreshNotary(ctx: Ctx, p: Platform)
    ensures InitialSlots(ctx, PlatformVerifier(p)).notary in {ZERO, At(ctx.cfg, NotaryService)}
  {
  }

  lemma ServiceIsBrought(cfg: NetworkConfig, opts: Options, w: World, i: nat)
    requires i < |Goals(cfg, opts.upgrades)| && Goals(cfg, opts.upgrades)[i].TrustRootsSet?
    ensures Brought(CtxOf(cfg, opts.confirmFreshDeploy, w), Goals(cfg, opts.upgrades)[..i], At(cfg, NotaryService))
  {
    var goals := Goals(cfg, opts.upgrades);
    assert goals[4] == Deployed(NotaryService) && goals[0] == FreshDeployConfirmed;
    assert goals[1] == Create2DeployerInstalled && goals[2] == FactoryInstalled && goals[3] == FactoryOwned;
    assert goals[..i][4] == Deployed(NotaryService);
    assert PutsCodeAt(CtxOf(cfg, opts.confirmFreshDeploy, w), Deployed(NotaryService), At(cfg, NotaryService));
  }

  // ----- Nobody looks at it -----

  function WithNotary(w: World, p: Platform, notary: Address): World
    requires PlatformVerifier(p) in w.proxies
  {
    var proxy := w.proxies[PlatformVerifier(p)];
    w.(proxies := w.proxies[PlatformVerifier(p) := proxy.(slots := proxy.slots.(notary := notary))])
  }

  lemma SitesIgnoreNotary(cfg: NetworkConfig, w: World, p: Platform, notary: Address)
    requires PlatformVerifier(p) in w.proxies
    ensures var moved := WithNotary(w, p, notary);
            && (forall q :: UsesVendored(cfg, moved, q) == UsesVendored(cfg, w, q))
            && (forall c :: SiteOf(cfg, moved, c) == SiteOf(cfg, w, c))
  {
    var moved := WithNotary(w, p, notary);
    assert forall q :: UsesVendored(cfg, moved, q) == UsesVendored(cfg, w, q);
  }

  lemma CircuitStatusIgnoresNotary(cfg: NetworkConfig, w: World, p: Platform, notary: Address, line: Line)
    requires PlatformVerifier(p) in w.proxies && (line.CircuitLine? || line.TrustRootsLine?)
    ensures StatusOf(cfg, WithNotary(w, p, notary), line) == StatusOf(cfg, w, line)
  {
    SitesIgnoreNotary(cfg, w, p, notary);
  }

  lemma StatusIgnoresNotary(cfg: NetworkConfig, w: World, p: Platform, notary: Address, line: Line)
    requires PlatformVerifier(p) in w.proxies
    ensures StatusOf(cfg, WithNotary(w, p, notary), line) == StatusOf(cfg, w, line)
  {
    if line.CircuitLine? || line.TrustRootsLine? { CircuitStatusIgnoresNotary(cfg, w, p, notary, line); }
  }

  lemma {:induction false} PlatformsLinesAlike(cfg: NetworkConfig, a: World, b: World, k: nat)
    requires a.proxies.Keys == b.proxies.Keys && k <= |LAUNCH|
    ensures PlatformsLines(cfg, a, k) == PlatformsLines(cfg, b, k)
    decreases k
  {
    if k > 0 { PlatformsLinesAlike(cfg, a, b, k - 1); }
  }

  lemma LinesAlike(cfg: NetworkConfig, a: World, b: World)
    requires a == b.(proxies := a.proxies) && a.proxies.Keys == b.proxies.Keys
    ensures Lines(cfg, a) == Lines(cfg, b)
  {
    PlatformsLinesAlike(cfg, a, b, |LAUNCH|);
    ReleaseIsCanonical(a);
    ReleaseIsCanonical(b);
    assert SafesLines(cfg, a) == SafesLines(cfg, b);
  }

  /** The plan is the same wherever a platform's notary pointer points. */
  lemma PlanIgnoresNotary(cfg: NetworkConfig, w: World, p: Platform, notary: Address)
    requires PlatformVerifier(p) in w.proxies
    ensures PlanOf(cfg, WithNotary(w, p, notary)) == PlanOf(cfg, w)
  {
    var moved := WithNotary(w, p, notary);
    LinesAlike(cfg, moved, w);
    forall line ensures StatusOf(cfg, moved, line) == StatusOf(cfg, w, line) {
      StatusIgnoresNotary(cfg, w, p, notary, line);
    }
  }

  lemma OtherGoalsIgnoreNotary(ctx: Ctx, g: Goal, w: World, p: Platform, notary: Address)
    requires PlatformVerifier(p) in w.proxies && !g.TrustRootsSet?
    ensures MoveFor(ctx, g, WithNotary(w, p, notary)) == MoveFor(ctx, g, w)
  {
    if StackGoal(g) {
      StackGoalsIgnoreNotary(ctx, g, w, p, notary);
    } else {
      ChainGoalsIgnoreNotary(ctx, g, w, p, notary);
    }
  }

  lemma StackGoalsIgnoreNotary(ctx: Ctx, g: Goal, w: World, p: Platform, notary: Address)
    requires PlatformVerifier(p) in w.proxies && !g.TrustRootsSet? && StackGoal(g)
    ensures MoveFor(ctx, g, WithNotary(w, p, notary)) == MoveFor(ctx, g, w)
  {
  }

  lemma ChainGoalsIgnoreNotary(ctx: Ctx, g: Goal, w: World, p: Platform, notary: Address)
    requires PlatformVerifier(p) in w.proxies && !StackGoal(g)
    ensures MoveFor(ctx, g, WithNotary(w, p, notary)) == MoveFor(ctx, g, w)
  {
  }

  lemma RotationsIgnoreNotary(ctx: Ctx, q: Platform, w: World, p: Platform, notary: Address)
    requires PlatformVerifier(p) in w.proxies
    ensures MoveFor(ctx, TrustRootsSet(q), WithNotary(w, p, notary)) ==
            if q == p && MoveFor(ctx, TrustRootsSet(q), w).Send?
            then Send([SetOn(PlatformVerifier(p), VerifyWith(notary, ctx.CircuitAt(p)))])
            else MoveFor(ctx, TrustRootsSet(q), w)
  {
    SitesIgnoreNotary(ctx.cfg, w, p, notary);
  }

  /** So is what a run does about every goal, but that a rotation hands back
      what it finds. */
  lemma GoalsIgnoreNotary(ctx: Ctx, g: Goal, w: World, p: Platform, notary: Address)
    requires PlatformVerifier(p) in w.proxies
    ensures MoveFor(ctx, g, WithNotary(w, p, notary)) ==
            if g == TrustRootsSet(p) && MoveFor(ctx, g, w).Send?
            then Send([SetOn(PlatformVerifier(p), VerifyWith(notary, ctx.CircuitAt(p)))])
            else MoveFor(ctx, g, w)
  {
    if g.TrustRootsSet? {
      RotationsIgnoreNotary(ctx, g.platform, w, p, notary);
    } else {
      OtherGoalsIgnoreNotary(ctx, g, w, p, notary);
    }
  }
}
