/** A run that upgrades, cut anywhere and started again with the same command:
    when it succeeds, from every chain the uncut run succeeds on. */
module Restart {
  import opened Prelude
  import opened Config
  import opened Worlds
  import opened Converge
  import opened Stability
  import opened Interruption
  import opened Recovery
  import opened Sites
  import opened Convergence
  import opened GoalState
  import opened Flow
  import opened Tracking
  import opened Progress
  import opened Rotation
  import opened Lockstep

  // ----- The goals done, once more with the old sites -----

  /** An upgrade that lands and changes nothing. */
  predicate Renewed(cfg: NetworkConfig, w: World, n: Name) {
    n in w.proxies && w.proxies[n].impl == Release(cfg, n) && w.proxies[n].owner == cfg.deployer
  }

  lemma RenewedByUpgrade(cfg: NetworkConfig, n: Name, w: World, w': World)
    requires Apply(cfg, Upgrade(n), w) == Some(w')
    ensures Renewed(cfg, w', n)
  {
  }

  lemma StaysRenewed(cfg: NetworkConfig, n: Name, tx: Tx, w: World, w': World)
    requires Renewed(cfg, w, n) && Apply(cfg, tx, w) == Some(w')
    ensures Renewed(cfg, w', n)
  {
    OwnerStays(cfg, n, tx, w, w');
    ReleaseStays(cfg, tx, w, w', n);
  }

  lemma UpgradeLeads(ctx: Ctx, n: Name, w: World)
    requires Perform(ctx, Upgraded(n), w).ok
    ensures Apply(ctx.cfg, Upgrade(n), w) == Some(Perform(ctx, Upgraded(n), w).world)
  {
    PerformSends(ctx, Upgraded(n), w);
  }

  lemma {:induction false} UpgradedIsRenewed(ctx: Ctx, goals: seq<Goal>, w: World, n: Name)
    requires Run(ctx, goals, w).ok && (Upgraded(n) in goals || Renewed(ctx.cfg, w, n))
    ensures Renewed(ctx.cfg, Run(ctx, goals, w).world, n)
    decreases |goals|
  {
    if goals != [] {
      var g, w' := goals[0], Perform(ctx, goals[0], w).world;
      if g == Upgraded(n) {
        UpgradeLeads(ctx, n, w);
        RenewedByUpgrade(ctx.cfg, n, w, w');
      } else if Renewed(ctx.cfg, w, n) && MoveFor(ctx, g, w).Send? {
        PerformSends(ctx, g, w);
        StaysRenewed(ctx.cfg, n, Act(ctx, g, w), w, w');
      }
      RunTrace(ctx, goals, w);
      UpgradedIsRenewed(ctx, goals[1..], w', n);
    }
  }

  /** Nothing to do for the goal, an upgrade done before included. */
  predicate Idles(ctx: Ctx, g: Goal, w: World) {
    Met(ctx, g, w) || (g.Upgraded? && Renewed(ctx.cfg, w, g.name))
  }

  lemma RenewedUpgrades(ctx: Ctx, n: Name, w: World)
    requires Renewed(ctx.cfg, w, n) && IsEntry(n)
    ensures Leads(ctx, Upgraded(n), w, w)
  {
    var proxy := w.proxies[n];
    assert proxy.(impl := Release(ctx.cfg, n)) == proxy;
    assert w.proxies[n := proxy] == w.proxies;
    assert UpgradeToAndCall in Interface(n);
  }

  lemma IdlesLeads(ctx: Ctx, g: Goal, w: World)
    requires Idles(ctx, g, w) && WellFormed(g)
    ensures Leads(ctx, g, w, w)
  {
    if !Met(ctx, g, w) { RenewedUpgrades(ctx, g.name, w); }
  }

  lemma {:induction false} IdleRun(ctx: Ctx, goals: seq<Goal>, w: World)
    requires forall g :: g in goals ==> WellFormed(g) && Idles(ctx, g, w)
    ensures Run(ctx, goals, w).ok && Run(ctx, goals, w).world == w
    decreases |goals|
  {
    if goals != [] {
      assert goals[0] in goals;
      IdlesLeads(ctx, goals[0], w);
      LeadsMeans(ctx, goals[0], w, w);
      RunTrace(ctx, goals, w);
      IdleRun(ctx, goals[1..], w);
    }
  }

  lemma RunSplits(ctx: Ctx, goals: seq<Goal>, w: World, i: nat)
    requires i <= |goals|
    ensures var first := Run(ctx, goals[..i], w);
            Run(ctx, goals, w) == if first.ok then Then(first, Run(ctx, goals[i..], first.world)) else first
  {
    assert goals == goals[..i] + goals[i..];
    RunAppend(ctx, goals[..i], goals[i..], w);
  }

  lemma PassedIdles(cfg: NetworkConfig, opts: Options, w: World, i: nat, g: Goal)
    requires Valid(cfg) && RecordsHold(cfg, w) && i <= |Goals(cfg, opts.upgrades)|
    requires Run(CtxOf(cfg, opts.confirmFreshDeploy, w), Goals(cfg, opts.upgrades)[..i], w).ok
    requires g in Goals(cfg, opts.upgrades)[..i]
    ensures var ctx := CtxOf(cfg, opts.confirmFreshDeploy, w);
            Idles(ctx, g, Run(ctx, Goals(cfg, opts.upgrades)[..i], w).world)
  {
    var ctx, goals := CtxOf(cfg, opts.confirmFreshDeploy, w), Goals(cfg, opts.upgrades);
    if g.Upgraded? {
      UpgradedIsRenewed(ctx, goals[..i], w, g.name);
    } else {
      GoalsAreOrdered(ctx, opts.upgrades, w);
      OrderedPrefix(ctx, goals, w, i);
      FinishedIsMet(ctx, goals[..i], w, g);
    }
  }

  /** With the sites it had, a run started again where it had got to ends where
      it would have ended. */
  lemma ReplayedRun(cfg: NetworkConfig, opts: Options, w: World, i: nat)
    requires Valid(cfg) && RecordsHold(cfg, w) && RunAll(cfg, cfg.deployer, opts, w).ok
    requires i <= |Goals(cfg, opts.upgrades)|
    ensures var ctx, goals := CtxOf(cfg, opts.confirmFreshDeploy, w), Goals(cfg, opts.upgrades);
            var again := Run(ctx, goals, Run(ctx, goals[..i], w).world);
            again.ok && again.world == RunAll(cfg, cfg.deployer, opts, w).world
  {
    var ctx, goals := CtxOf(cfg, opts.confirmFreshDeploy, w), Goals(cfg, opts.upgrades);
    var cut := Run(ctx, goals[..i], w).world;
    RunSplits(ctx, goals, w, i);
    forall g | g in goals[..i] ensures WellFormed(g) && Idles(ctx, g, cut) {
      PlainIsWellFormed(cfg, opts.upgrades, g);
      PassedIdles(cfg, opts, w, i, g);
    }
    IdleRun(ctx, goals[..i], cut);
    RunSplits(ctx, goals, cut, i);
  }

  // ----- A circuit is in use only after its own goal -----

  /** Goals that can put a platform on the vendored code of its circuit, or make
      it answer. */
  predicate Touches(g: Goal, p: Platform) {
    || g == CircuitDeployed(CircuitOf(p)) || g == Deployed(PlatformVerifier(p)) || g == Upgraded(PlatformVerifier(p))
    || g == TrustRootsSet(p)
  }

  predicate TouchesBy(tx: Tx, p: Platform) {
    || tx == DeployCircuit(CircuitOf(p)) || (tx.DeployProxy? && tx.name == PlatformVerifier(p))
    || tx == Upgrade(PlatformVerifier(p)) || Rotates(tx, p)
  }

  lemma TouchedByGoal(ctx: Ctx, p: Platform, g: Goal, w: World)
    requires MoveFor(ctx, g, w).Send? && TouchesBy(Act(ctx, g, w), p)
    ensures Touches(g, p)
  {
    if HandsNotaryBack(Act(ctx, g, w)) { NotaryAsStored(ctx, g, w); }
  }

  lemma UntouchedStays(cfg: NetworkConfig, p: Platform, tx: Tx, w: World, w': World)
    requires !UsesVendored(cfg, w, p) && !TouchesBy(tx, p) && Apply(cfg, tx, w) == Some(w')
    ensures !UsesVendored(cfg, w', p)
  {
    var n := PlatformVerifier(p);
    PointerStays(cfg, n, tx, w, w');
    if n in w.proxies {
      ImplementationStays(cfg, n, tx, w, w');
      CodeStays(cfg, tx, w, w');
      if w.proxies[n].slots.honk !in w.code && w.proxies[n].slots.honk in w'.code {
        NewCode(cfg, tx, w, w', w.proxies[n].slots.honk);
      }
    }
  }

  lemma {:induction false} UntouchedRun(ctx: Ctx, p: Platform, goals: seq<Goal>, w: World)
    requires !UsesVendored(ctx.cfg, w, p) && (forall g :: g in goals ==> !Touches(g, p))
    ensures !UsesVendored(ctx.cfg, Run(ctx, goals, w).world, p)
    decreases |goals|
  {
    if goals != [] {
      var g, first := goals[0], Perform(ctx, goals[0], w);
      assert g in goals && forall h :: h in goals[1..] ==> h in goals;
      RunTrace(ctx, goals, w);
      if MoveFor(ctx, g, w).Send? {
        PerformedWorld(ctx, g, w);
        if Apply(ctx.cfg, Act(ctx, g, w), w).Some? {
          if TouchesBy(Act(ctx, g, w), p) { TouchedByGoal(ctx, p, g, w); }
          UntouchedStays(ctx.cfg, p, Act(ctx, g, w), w, first.world);
        }
      }
      if first.ok { UntouchedRun(ctx, p, goals[1..], first.world); }
    }
  }

  lemma CircuitComesFirst(cfg: NetworkConfig, u: seq<Name>, j: nat, p: Platform)
    requires j < |Goals(cfg, u)| && Touches(Goals(cfg, u)[j], p)
    ensures CircuitDeployed(CircuitOf(p)) in Goals(cfg, u)[..j + 1]
  {
    var goals, c := Goals(cfg, u), CircuitDeployed(CircuitOf(p));
    if goals[j] == c {
      assert goals[..j + 1][j] == c;
    } else if goals[j].Upgraded? {
      NeedIsPassed(cfg, u, goals, j, Deployed(PlatformVerifier(p)));
      var k := IndexIn(goals, j, Deployed(PlatformVerifier(p)));
      NeedIsPassed(cfg, u, goals, k, c);
      PrefixGrows(goals, k, j + 1, c);
    } else {
      NeedIsPassed(cfg, u, goals, j, c);
      PrefixGrows(goals, j, j + 1, c);
    }
  }

  lemma IndexIn(goals: seq<Goal>, j: nat, g: Goal) returns (k: nat)
    requires j <= |goals| && g in goals[..j]
    ensures k < j && goals[k] == g
  {
    k :| 0 <= k < j && goals[..j][k] == g;
  }

  lemma PrefixGrows(goals: seq<Goal>, i: nat, j: nat, g: Goal)
    requires i <= j <= |goals| && g in goals[..i]
    ensures g in goals[..j]
  {
    var k := IndexIn(goals, i, g);
    assert goals[..j][k] == g;
  }

  /** A platform that has come to use the vendored code has its circuit's goal
      behind it. */
  lemma InUseAfterDeploy(ctx: Ctx, u: seq<Name>, w: World, i: nat, p: Platform)
    requires i <= |Goals(ctx.cfg, u)| && !UsesVendored(ctx.cfg, w, p)
    requires UsesVendored(ctx.cfg, Run(ctx, Goals(ctx.cfg, u)[..i], w).world, p)
    ensures CircuitDeployed(CircuitOf(p)) in Goals(ctx.cfg, u)[..i]
  {
    var goals := Goals(ctx.cfg, u);
    if forall g :: g in goals[..i] ==> !Touches(g, p) {
      UntouchedRun(ctx, p, goals[..i], w);
    } else {
      var g :| g in goals[..i] && Touches(g, p);
      var j := IndexIn(goals, i, g);
      CircuitComesFirst(ctx.cfg, u, j, p);
      PrefixGrows(goals, j + 1, i, CircuitDeployed(CircuitOf(p)));
    }
  }

  // ----- Locating again -----

  /** `p` holds the vendored code, and `q` neither does nor can be moved onto
      it by the run. */
  predicate Strands(cfg: NetworkConfig, opts: Options, w: World, p: Platform, q: Platform) {
    Holds(cfg, w, p) && !Holds(cfg, w, q) && PlatformVerifier(q) !in opts.upgrades && !CanRotate(cfg, w, q)
  }

  /** No vendored verifier of the circuit X and GitHub share can be located, its
      name holds foreign code, and one of the two could not follow the other. */
  predicate Trapped(cfg: NetworkConfig, opts: Options, w: World) {
    NameIsTaken(cfg, w) && (Strands(cfg, opts, w, X, GitHub) || Strands(cfg, opts, w, GitHub, X))
  }

  lemma {:induction false} RunKeepsCanRotate(ctx: Ctx, p: Platform, goals: seq<Goal>, w: World)
    requires CanRotate(ctx.cfg, w, p)
    ensures CanRotate(ctx.cfg, Run(ctx, goals, w).world, p)
    decreases |goals|
  {
    if goals != [] {
      var g, first := goals[0], Perform(ctx, goals[0], w);
      RunTrace(ctx, goals, w);
      if MoveFor(ctx, g, w).Send? {
        PerformedWorld(ctx, g, w);
        if Apply(ctx.cfg, Act(ctx, g, w), w).Some? { TxKeepsCanRotate(ctx.cfg, p, Act(ctx, g, w), w, first.world); }
      }
      if first.ok { RunKeepsCanRotate(ctx, p, goals[1..], first.world); }
    }
  }

  /** With the upgrade at `j`, before the first rotation. */
  lemma {:induction false} DueUntil(goals: seq<Goal>, p: Platform, j: nat)
    requires j < |goals| && goals[j] == Upgraded(PlatformVerifier(p)) && TrustRootsSet(p) !in goals[..j]
    ensures UpgradeDue(goals, p)
    decreases j
  {
    if j > 0 {
      assert goals[0] in goals[..j];
      assert forall g :: g in goals[1..][..j - 1] ==> g in goals[..j];
      DueUntil(goals[1..], p, j - 1);
    }
  }

  lemma UpgradeIsDue(cfg: NetworkConfig, u: seq<Name>, p: Platform)
    requires (forall n :: n in u ==> IsEntry(n)) && PlatformVerifier(p) in u
    ensures UpgradeDue(Goals(cfg, u), p)
  {
    var goals := Goals(cfg, u);
    RequestIsAGoal(cfg, u, PlatformVerifier(p));
    var j :| 0 <= j < |goals| && goals[j] == Upgraded(PlatformVerifier(p));
    UpgradeBeforeRead(cfg, u, j);
    RotationReadsItsProxy(p);
    DueUntil(goals, p, j);
  }

  lemma RotationReadsItsProxy(p: Platform)
    ensures PlatformVerifier(p) in ReadsThrough(TrustRootsSet(p))
  {
  }

  lemma PlatformsOf(p: Platform, q: Platform)
    requires CircuitOf(p) == CircuitOf(q) && p != q
    ensures CircuitOf(p) == BearerLink && ((p == X && q == GitHub) || (p == GitHub && q == X))
  {
  }

  /** A site that has changed: some platform of the circuit uses the vendored
      code now. */
  lemma SiteInUse(cfg: NetworkConfig, w: World, c: Circuit) returns (p: Platform)
    requires SiteOf(cfg, w, c).InUse?
    ensures CircuitOf(p) == c && UsesVendored(cfg, w, p)
    ensures CodeAt(w, SiteOf(cfg, w, c).address) == Some(Vendored(cfg, c))
  {
    p := if c.OidcGoogle? then Google else if UsesVendored(cfg, w, X) then X else GitHub;
  }

  lemma NotInUse(cfg: NetworkConfig, w: World, p: Platform)
    requires SiteOf(cfg, w, CircuitOf(p)).Named?
    ensures !UsesVendored(cfg, w, p)
    ensures SiteOf(cfg, w, CircuitOf(p)) == Named(At(cfg, OwnVerifier(cfg, CircuitOf(p))))
  {
  }

  lemma UsesHolds(cfg: NetworkConfig, w: World, p: Platform)
    requires UsesVendored(cfg, w, p)
    ensures Holds(cfg, w, p)
  {
  }

  lemma SiteRemains(ctx: Ctx, goals: seq<Goal>, w: World, p: Platform)
    requires ctx.sites == Locate(ctx.cfg, w)
    requires SiteOf(ctx.cfg, Run(ctx, goals, w).world, CircuitOf(p)).Named?
    ensures ctx.sites.Of(CircuitOf(p)) == SiteOf(ctx.cfg, Run(ctx, goals, w).world, CircuitOf(p))
  {
    var c := CircuitOf(p);
    NotInUse(ctx.cfg, Run(ctx, goals, w).world, p);
    if SiteOf(ctx.cfg, w, c).InUse? {
      var q := SiteInUse(ctx.cfg, w, c);
      RunKeepsVendored(ctx, q, goals, w);
      NotInUse(ctx.cfg, Run(ctx, goals, w).world, q);
      assert false;
    }
    NotInUse(ctx.cfg, w, p);
  }

  /** Under foreign code at the shared circuit's name, the platforms hold what
      they held. */
  lemma StuckHolds(ctx: Ctx, goals: seq<Goal>, w: World, p: Platform)
    requires ctx.sites == Locate(ctx.cfg, w) && NameIsTaken(ctx.cfg, w) && CircuitOf(p) == BearerLink
    ensures Holds(ctx.cfg, Run(ctx, goals, w).world, p) <==> Holds(ctx.cfg, w, p)
  {
    NotInUse(ctx.cfg, w, X);
    HoldsThroughout(ctx, p, goals, w);
  }

  lemma PreparedWhereTaken(cfg: NetworkConfig, opts: Options, w: World, i: nat, p: Platform, q: Platform)
    requires (forall n :: n in opts.upgrades ==> IsEntry(n)) && i <= |Goals(cfg, opts.upgrades)|
    requires NameIsTaken(cfg, w) && !Trapped(cfg, opts, w) && CircuitOf(p) == BearerLink == CircuitOf(q)
    requires Holds(cfg, Run(CtxOf(cfg, opts.confirmFreshDeploy, w), Goals(cfg, opts.upgrades)[..i], w).world, q)
    ensures var ctx := CtxOf(cfg, opts.confirmFreshDeploy, w);
            Prepared(cfg, Goals(cfg, opts.upgrades), Run(ctx, Goals(cfg, opts.upgrades)[..i], w).world, p)
  {
    var ctx, goals := CtxOf(cfg, opts.confirmFreshDeploy, w), Goals(cfg, opts.upgrades);
    StuckHolds(ctx, goals[..i], w, p);
    StuckHolds(ctx, goals[..i], w, q);
    if !Holds(cfg, w, p) {
      PlatformsOf(p, q);
      if CanRotate(cfg, w, p) {
        RunKeepsCanRotate(ctx, p, goals[..i], w);
      } else {
        UpgradeIsDue(cfg, opts.upgrades, p);
      }
    }
  }

  lemma OldSiteHasCode(cfg: NetworkConfig, opts: Options, w: World, i: nat, p: Platform, q: Platform)
    requires Valid(cfg) && RecordsHold(cfg, w) && i <= |Goals(cfg, opts.upgrades)|
    requires Run(CtxOf(cfg, opts.confirmFreshDeploy, w), Goals(cfg, opts.upgrades)[..i], w).ok
    requires CircuitOf(p) == CircuitOf(q)
    requires UsesVendored(cfg, Run(CtxOf(cfg, opts.confirmFreshDeploy, w), Goals(cfg, opts.upgrades)[..i], w).world, q)
    ensures var ctx := CtxOf(cfg, opts.confirmFreshDeploy, w);
            var cut := Run(ctx, Goals(cfg, opts.upgrades)[..i], w).world;
            && ctx.CircuitAt(p) in cut.code
            && (ctx.sites.Of(CircuitOf(p)).InUse? ==>
                  CodeAt(cut, ctx.CircuitAt(p)) == Some(Vendored(cfg, CircuitOf(p))))
  {
    var ctx, goals, c := CtxOf(cfg, opts.confirmFreshDeploy, w), Goals(cfg, opts.upgrades), CircuitOf(p);
    CodeGrows(ctx, goals[..i], w);
    if ctx.sites.Of(c).InUse? {
      var r := SiteInUse(cfg, w, c);
    } else {
      NotInUse(cfg, w, q);
      InUseAfterDeploy(ctx, opts.upgrades, w, i, q);
      PassedIdles(cfg, opts, w, i, CircuitDeployed(c));
      NotMissing(ctx, c, Run(ctx, goals[..i], w).world);
    }
  }

  lemma NotMissing(ctx: Ctx, c: Circuit, w: World)
    requires Met(ctx, CircuitDeployed(c), w) && ctx.sites.Of(c).Named?
    ensures ctx.sites.Of(c).address in w.code
  {
  }

  /** Wherever the run is cut, the sites located again stand to the old ones as
      the two runs need. */
  lemma RelocatedPlatform(cfg: NetworkConfig, opts: Options, w: World, i: nat, p: Platform)
    requires Valid(cfg) && RecordsHold(cfg, w) && (forall n :: n in opts.upgrades ==> IsEntry(n))
    requires !Trapped(cfg, opts, w) && i <= |Goals(cfg, opts.upgrades)|
    requires Run(CtxOf(cfg, opts.confirmFreshDeploy, w), Goals(cfg, opts.upgrades)[..i], w).ok
    ensures var ctx, goals := CtxOf(cfg, opts.confirmFreshDeploy, w), Goals(cfg, opts.upgrades);
            var cut := Run(ctx, goals[..i], w).world;
            Resited(ctx, CtxOf(cfg, opts.confirmFreshDeploy, cut), goals, cut, p)
  {
    var ctx, goals, c := CtxOf(cfg, opts.confirmFreshDeploy, w), Goals(cfg, opts.upgrades), CircuitOf(p);
    var cut := Run(ctx, goals[..i], w).world;
    if SiteOf(cfg, cut, c).Named? {
      SiteRemains(ctx, goals[..i], w, p);
    } else {
      var q := SiteInUse(cfg, cut, c);
      UsesHolds(cfg, cut, q);
      OldSiteHasCode(cfg, opts, w, i, p, q);
      if ctx.sites.Of(c).Named? {
        NotInUse(cfg, w, p);
        if NameHoldsVendored(cfg, w, c) {
          NameHoldsVendoredThroughout(ctx, c, goals[..i], w);
        } else if c.BearerLink? {
          PreparedWhereTaken(cfg, opts, w, i, p, q);
        }
      }
    }
  }

  lemma AlikeItself(cfg: NetworkConfig, w: World)
    ensures Alike(cfg, w, w)
  {
  }

  // ----- Started again -----

  /** From where the run had got to after `i` goals. */
  lemma RestartsFrom(cfg: NetworkConfig, opts: Options, w: World, i: nat)
    requires Valid(cfg) && RecordsHold(cfg, w) && (forall n :: n in opts.upgrades ==> IsEntry(n))
    requires RunAll(cfg, cfg.deployer, opts, w).ok && !Trapped(cfg, opts, w) && i <= |Goals(cfg, opts.upgrades)|
    ensures var cut := Run(CtxOf(cfg, opts.confirmFreshDeploy, w), Goals(cfg, opts.upgrades)[..i], w).world;
            var again := RunAll(cfg, cfg.deployer, opts, cut);
            && RecordsHold(cfg, cut)
            && again.ok && Alike(cfg, again.world, RunAll(cfg, cfg.deployer, opts, w).world)
  {
    var ctx, goals := CtxOf(cfg, opts.confirmFreshDeploy, w), Goals(cfg, opts.upgrades);
    var cut := Run(ctx, goals[..i], w).world;
    RunSplits(ctx, goals, w, i);
    RunKeepsRecords(ctx, goals[..i], w);
    ReplayedRun(cfg, opts, w, i);
    forall p ensures Resited(ctx, CtxOf(cfg, opts.confirmFreshDeploy, cut), goals, cut, p) {
      RelocatedPlatform(cfg, opts, w, i, p);
    }
    forall g | g in goals ensures WellFormed(g) { PlainIsWellFormed(cfg, opts.upgrades, g); }
    AlikeItself(cfg, cut);
    RunFollows(ctx, CtxOf(cfg, opts.confirmFreshDeploy, cut), goals, cut, cut);
  }

  /** The chain a run has left when it is cut after `k` transactions. */
  ghost predicate CutAt(cfg: NetworkConfig, opts: Options, w: World, k: nat, cut: World) {
    && k <= |RunAll(cfg, cfg.deployer, opts, w).trace|
    && ApplyAll(cfg, RunAll(cfg, cfg.deployer, opts, w).trace[..k], w) == Some(cut)
  }

  lemma CutsExist(cfg: NetworkConfig, opts: Options, w: World, k: nat) returns (i: nat, cut: World)
    requires RunAll(cfg, cfg.deployer, opts, w).ok && k <= |RunAll(cfg, cfg.deployer, opts, w).trace|
    ensures CutAt(cfg, opts, w, k, cut) && i <= |Goals(cfg, opts.upgrades)|
    ensures cut == Run(CtxOf(cfg, opts.confirmFreshDeploy, w), Goals(cfg, opts.upgrades)[..i], w).world
  {
    var ctx, goals := CtxOf(cfg, opts.confirmFreshDeploy, w), Goals(cfg, opts.upgrades);
    InterruptedIsPrefix(ctx, goals, w, k);
    i := CutIsReached(ctx, goals, w, k);
    cut := Interrupted(ctx, goals, w, k);
  }

  /** Cut after any of its transactions and started again with the same
      command, a run that succeeds uncut succeeds and converges, and leaves the
      same chain but for which vendored verifier a platform points at. */
  lemma RestartSucceeds(cfg: NetworkConfig, opts: Options, w: World, k: nat, cut: World)
    requires Valid(cfg) && RecordsHold(cfg, w) && (forall n :: n in opts.upgrades ==> IsEntry(n))
    requires RunAll(cfg, cfg.deployer, opts, w).ok && CutAt(cfg, opts, w, k, cut) && !Trapped(cfg, opts, w)
    ensures var again := RunAll(cfg, cfg.deployer, opts, cut);
            && again.ok && Converged(cfg, again.world)
            && Alike(cfg, again.world, RunAll(cfg, cfg.deployer, opts, w).world)
  {
    var i, same := CutsExist(cfg, opts, w, k);
    RestartsFrom(cfg, opts, w, i);
    FinishedIsConverged(cfg, opts, cut);
  }

  lemma StaysUntrapped(cfg: NetworkConfig, opts: Options, w: World, i: nat)
    requires Valid(cfg) && !Trapped(cfg, opts, w) && i <= |Goals(cfg, opts.upgrades)|
    ensures !Trapped(cfg, opts, Run(CtxOf(cfg, opts.confirmFreshDeploy, w), Goals(cfg, opts.upgrades)[..i], w).world)
  {
    var ctx, done := CtxOf(cfg, opts.confirmFreshDeploy, w), Goals(cfg, opts.upgrades)[..i];
    if NameIsTaken(cfg, Run(ctx, done, w).world) {
      SiteRemains(ctx, done, w, X);
      if NameHoldsVendored(cfg, w, BearerLink) { NameHoldsVendoredThroughout(ctx, BearerLink, done, w); }
      forall p | p == X || p == GitHub
        ensures Holds(cfg, Run(ctx, done, w).world, p) <==> Holds(cfg, w, p)
        ensures CanRotate(cfg, w, p) ==> CanRotate(cfg, Run(ctx, done, w).world, p)
      {
        StuckHolds(ctx, done, w, p);
        if CanRotate(cfg, w, p) { RunKeepsCanRotate(ctx, p, done, w); }
      }
    }
  }

  lemma AlikeFollows(cfg: NetworkConfig, u: World, v: World, w: World)
    requires Alike(cfg, u, v) && Alike(cfg, v, w)
    ensures Alike(cfg, u, w)
  {
    forall n | n in w.proxies ensures AlikeAt(cfg, u, w, n) {
      assert AlikeAt(cfg, v, w, n) && AlikeAt(cfg, u, v, n);
    }
  }

  /** The chain after runs of the same command that were each cut after so many
      transactions. */
  function AfterRestarts(cfg: NetworkConfig, opts: Options, w: World, cuts: seq<nat>): World
    decreases |cuts|
  {
    if cuts == [] then w
    else
      var trace := RunAll(cfg, cfg.deployer, opts, w).trace;
      var cut := ApplyAll(cfg, trace[..if cuts[0] <= |trace| then cuts[0] else |trace|], w);
      if cut.None? then w else AfterRestarts(cfg, opts, cut.value, cuts[1..])
  }

  /** Any number of interruptions of a run with upgrades, anywhere, leave the
      last run to succeed and to converge as the first would have. */
  lemma {:induction false} RepeatedRestarts(cfg: NetworkConfig, opts: Options, w: World, cuts: seq<nat>)
    requires Valid(cfg) && RecordsHold(cfg, w) && (forall n :: n in opts.upgrades ==> IsEntry(n))
    requires RunAll(cfg, cfg.deployer, opts, w).ok && !Trapped(cfg, opts, w)
    ensures var last := RunAll(cfg, cfg.deployer, opts, AfterRestarts(cfg, opts, w, cuts));
            && last.ok && Converged(cfg, last.world)
            && Alike(cfg, last.world, RunAll(cfg, cfg.deployer, opts, w).world)
    decreases |cuts|
  {
    var whole := RunAll(cfg, cfg.deployer, opts, w);
    if cuts == [] {
      FinishedIsConverged(cfg, opts, w);
      AlikeItself(cfg, whole.world);
    } else {
      var k := if cuts[0] <= |whole.trace| then cuts[0] else |whole.trace|;
      var i, cut := CutsExist(cfg, opts, w, k);
      RestartsFrom(cfg, opts, w, i);
      StaysUntrapped(cfg, opts, w, i);
      RepeatedRestarts(cfg, opts, cut, cuts[1..]);
      AlikeFollows(cfg, RunAll(cfg, cfg.deployer, opts, AfterRestarts(cfg, opts, cut, cuts[1..])).world,
        RunAll(cfg, cfg.deployer, opts, cut).world, whole.world);
    }
  }

  // ----- The one way it fails -----

  lemma StuckPointer(ctx: Ctx, p: Platform, g: Goal, w: World)
    requires Located(ctx) && ctx.sites.bearerLink.Named? && Stuck(ctx, w) && CircuitOf(p) == BearerLink
    ensures var n, w' := PlatformVerifier(p), Perform(ctx, g, w).world;
            && Stuck(ctx, w') && (n in w'.proxies <==> n in w.proxies)
            && (n in w.proxies ==> SlotsOf(w', n).honk == SlotsOf(w, n).honk)
  {
    if MoveFor(ctx, g, w).Send? {
      PerformedWorld(ctx, g, w);
      var next := Apply(ctx.cfg, Act(ctx, g, w), w);
      if next.Some? {
        NothingRotates(ctx, p, g, w);
        PointerStays(ctx.cfg, PlatformVerifier(p), Act(ctx, g, w), w, next.value);
        CodeStays(ctx.cfg, Act(ctx, g, w), w, next.value);
      }
    }
  }

  lemma {:induction false} StuckThroughout(ctx: Ctx, p: Platform, goals: seq<Goal>, w: World)
    requires Located(ctx) && ctx.sites.bearerLink.Named? && Stuck(ctx, w) && CircuitOf(p) == BearerLink
    ensures var n, end := PlatformVerifier(p), Run(ctx, goals, w).world;
            && Stuck(ctx, end) && (n in end.proxies <==> n in w.proxies)
            && (n in w.proxies ==> SlotsOf(end, n).honk == SlotsOf(w, n).honk)
    decreases |goals|
  {
    if goals != [] {
      RunTrace(ctx, goals, w);
      StuckPointer(ctx, p, goals[0], w);
      if Perform(ctx, goals[0], w).ok { StuckThroughout(ctx, p, goals[1..], Perform(ctx, goals[0], w).world); }
    }
  }

  /** On other code, and not to be moved off it without its upgrade. */
  predicate Stranded(cfg: NetworkConfig, w: World, q: Platform) {
    UsesOther(cfg, w, q) && !CanRotate(cfg, w, q)
  }

  lemma CannotRotateOn(cfg: NetworkConfig, q: Platform, tx: Tx, w: World, w': World)
    requires PlatformVerifier(q) in w.proxies && !CanRotate(cfg, w, q)
    requires tx != Upgrade(PlatformVerifier(q)) && Apply(cfg, tx, w) == Some(w')
    ensures !CanRotate(cfg, w', q)
  {
    ImplementationStays(cfg, PlatformVerifier(q), tx, w, w');
    OwnerStays(cfg, PlatformVerifier(q), tx, w, w');
  }

  lemma StaysStranded(ctx: Ctx, q: Platform, g: Goal, w: World)
    requires Stranded(ctx.cfg, w, q) && g != Upgraded(PlatformVerifier(q))
    ensures Stranded(ctx.cfg, Perform(ctx, g, w).world, q)
  {
    if MoveFor(ctx, g, w).Send? {
      PerformedWorld(ctx, g, w);
      var tx := Act(ctx, g, w);
      var next := Apply(ctx.cfg, tx, w);
      if next.Some? {
        NoOtherUpgrade(ctx, q, g, w);
        if Rotates(tx, q) {
          NotaryAsStored(ctx, g, w);
          RotationPoints(ctx, q, w, next.value);
        }
        CannotRotateOn(ctx.cfg, q, tx, w, next.value);
        OtherStays(ctx.cfg, q, tx, w, next.value);
      }
    }
  }

  lemma {:induction false} StrandedThroughout(ctx: Ctx, q: Platform, goals: seq<Goal>, w: World)
    requires Stranded(ctx.cfg, w, q) && Upgraded(PlatformVerifier(q)) !in goals
    ensures Stranded(ctx.cfg, Run(ctx, goals, w).world, q)
    decreases |goals|
  {
    if goals != [] {
      RunTrace(ctx, goals, w);
      StaysStranded(ctx, q, goals[0], w);
      if Perform(ctx, goals[0], w).ok { StrandedThroughout(ctx, q, goals[1..], Perform(ctx, goals[0], w).world); }
    }
  }

  lemma NotRequested(cfg: NetworkConfig, u: seq<Name>, q: Platform)
    requires PlatformVerifier(q) !in u
    ensures Upgraded(PlatformVerifier(q)) !in Goals(cfg, u)
  {
    if Upgraded(PlatformVerifier(q)) in Goals(cfg, u) { GoalIndexed(cfg, u, Upgraded(PlatformVerifier(q))); }
  }

  lemma PlatformEnds(cfg: NetworkConfig, opts: Options, w: World, p: Platform)
    requires Valid(cfg) && RecordsHold(cfg, w) && RunAll(cfg, cfg.deployer, opts, w).ok
    ensures var end := RunAll(cfg, cfg.deployer, opts, w).world;
            && Answers(end, PlatformVerifier(p), HonkVerifier)
            && (UsesVendored(cfg, end, p) || SlotsOf(end, PlatformVerifier(p)).honk
                                             == CtxOf(cfg, opts.confirmFreshDeploy, w).CircuitAt(p))
  {
    FinishedSettles(cfg, opts, w);
    PlatformGoals(CtxOf(cfg, opts.confirmFreshDeploy, w), RunAll(cfg, cfg.deployer, opts, w).world, p);
  }

  /** A run does not succeed where a stranded platform's circuit is in use by
      the other. */
  lemma StrandedFails(cfg: NetworkConfig, opts: Options, w: World, p: Platform, q: Platform)
    requires Valid(cfg) && RecordsHold(cfg, w) && PlatformVerifier(q) !in opts.upgrades
    requires CircuitOf(p) == CircuitOf(q) && UsesVendored(cfg, w, p) && Stranded(cfg, w, q)
    ensures !RunAll(cfg, cfg.deployer, opts, w).ok
  {
    var ctx, goals := CtxOf(cfg, opts.confirmFreshDeploy, w), Goals(cfg, opts.upgrades);
    NotRequested(cfg, opts.upgrades, q);
    StrandedThroughout(ctx, q, goals, w);
    LocatedInUse(cfg, w, p, q);
    CodeGrows(ctx, goals, w);
    VendoredIsNotOther(cfg, Run(ctx, goals, w).world, q);
    if Run(ctx, goals, w).ok { PlatformEnds(cfg, opts, w, q); }
  }

  lemma LocatedInUse(cfg: NetworkConfig, w: World, p: Platform, q: Platform)
    requires CircuitOf(p) == CircuitOf(q) && UsesVendored(cfg, w, p)
    ensures CodeAt(w, SiteOf(cfg, w, CircuitOf(q)).address) == Some(Vendored(cfg, CircuitOf(q)))
  {
  }

  /** The trapped run upgrades the platform that holds the vendored code. */
  lemma HolderIsUpgraded(cfg: NetworkConfig, opts: Options, w: World, p: Platform)
    requires Valid(cfg) && RecordsHold(cfg, w) && RunAll(cfg, cfg.deployer, opts, w).ok
    requires SiteOf(cfg, w, CircuitOf(p)).Named? && Holds(cfg, w, p)
    ensures Upgraded(PlatformVerifier(p)) in Goals(cfg, opts.upgrades)
  {
    var n := PlatformVerifier(p);
    NotInUse(cfg, w, p);
    PlatformEnds(cfg, opts, w, p);
    if Upgraded(n) !in Goals(cfg, opts.upgrades) {
      NotUpgraded(CtxOf(cfg, opts.confirmFreshDeploy, w), n, Goals(cfg, opts.upgrades), w);
    }
  }

  lemma {:induction false} NotUpgraded(ctx: Ctx, n: Name, goals: seq<Goal>, w: World)
    requires n in w.proxies && Upgraded(n) !in goals
    ensures var end := Run(ctx, goals, w).world; n in end.proxies && end.proxies[n].impl == w.proxies[n].impl
    decreases |goals|
  {
    if goals != [] {
      var g, first := goals[0], Perform(ctx, goals[0], w);
      RunTrace(ctx, goals, w);
      if MoveFor(ctx, g, w).Send? {
        PerformedWorld(ctx, g, w);
        OnlyUpgradesUpgrade(ctx, g, w);
        if Apply(ctx.cfg, Act(ctx, g, w), w).Some? { ImplementationStays(ctx.cfg, n, Act(ctx, g, w), w, first.world); }
      }
      if first.ok { NotUpgraded(ctx, n, goals[1..], first.world); }
    }
  }

  lemma PrefixIsCut(cfg: NetworkConfig, opts: Options, w: World, i: nat) returns (k: nat)
    requires RunAll(cfg, cfg.deployer, opts, w).ok && i <= |Goals(cfg, opts.upgrades)|
    ensures CutAt(cfg, opts, w, k, Run(CtxOf(cfg, opts.confirmFreshDeploy, w), Goals(cfg, opts.upgrades)[..i], w).world)
  {
    var ctx, goals := CtxOf(cfg, opts.confirmFreshDeploy, w), Goals(cfg, opts.upgrades);
    var done := Run(ctx, goals[..i], w);
    RunSplits(ctx, goals, w, i);
    k := |done.trace|;
    InterruptedIsPrefix(ctx, goals[..i], w, k);
    InterruptedAtTheEnd(ctx, goals[..i], w);
    assert done.trace[..k] == done.trace;
    assert RunAll(cfg, cfg.deployer, opts, w).trace[..k] == done.trace;
  }

  /** A trapped run has a cut from which the same command does not succeed:
      right after the upgrade that makes the verifier in use readable. */
  lemma TrappedFails(cfg: NetworkConfig, opts: Options, w: World, p: Platform, q: Platform) returns (k: nat, cut: World)
    requires Valid(cfg) && RecordsHold(cfg, w) && RunAll(cfg, cfg.deployer, opts, w).ok
    requires NameIsTaken(cfg, w) && Strands(cfg, opts, w, p, q) && CircuitOf(p) == BearerLink == CircuitOf(q)
    ensures CutAt(cfg, opts, w, k, cut) && !RunAll(cfg, cfg.deployer, opts, cut).ok
  {
    var ctx, goals := CtxOf(cfg, opts.confirmFreshDeploy, w), Goals(cfg, opts.upgrades);
    HolderIsUpgraded(cfg, opts, w, p);
    assert goals[..|goals|] == goals;
    var j := IndexIn(goals, |goals|, Upgraded(PlatformVerifier(p)));
    cut := Run(ctx, goals[..j + 1], w).world;
    k := PrefixIsCut(cfg, opts, w, j + 1);
    RunKeepsRecords(ctx, goals[..j + 1], w);
    HolderInUse(cfg, opts, w, j, p);
    StrandedAtCut(cfg, opts, w, j + 1, q);
    StrandedFails(cfg, opts, cut, p, q);
  }

  lemma HolderInUse(cfg: NetworkConfig, opts: Options, w: World, j: nat, p: Platform)
    requires RunAll(cfg, cfg.deployer, opts, w).ok && j < |Goals(cfg, opts.upgrades)|
    requires Goals(cfg, opts.upgrades)[j] == Upgraded(PlatformVerifier(p))
    requires NameIsTaken(cfg, w) && Holds(cfg, w, p) && CircuitOf(p) == BearerLink
    ensures UsesVendored(cfg,
              Run(CtxOf(cfg, opts.confirmFreshDeploy, w), Goals(cfg, opts.upgrades)[..j + 1], w).world, p)
  {
    var ctx, goals := CtxOf(cfg, opts.confirmFreshDeploy, w), Goals(cfg, opts.upgrades);
    RunSplits(ctx, goals, w, j + 1);
    assert goals[..j + 1][j] == Upgraded(PlatformVerifier(p));
    UpgradedIsRenewed(ctx, goals[..j + 1], w, PlatformVerifier(p));
    StuckHolds(ctx, goals[..j + 1], w, p);
    ReleaseReads(cfg, p);
  }

  lemma ReleaseReads(cfg: NetworkConfig, p: Platform)
    ensures HonkVerifier in Release(cfg, PlatformVerifier(p)).answers
  {
  }

  lemma StrandedAtCut(cfg: NetworkConfig, opts: Options, w: World, i: nat, q: Platform)
    requires Valid(cfg) && RecordsHold(cfg, w) && RunAll(cfg, cfg.deployer, opts, w).ok
    requires i <= |Goals(cfg, opts.upgrades)| && NameIsTaken(cfg, w) && CircuitOf(q) == BearerLink
    requires !Holds(cfg, w, q) && PlatformVerifier(q) !in opts.upgrades && !CanRotate(cfg, w, q)
    ensures Stranded(cfg, Run(CtxOf(cfg, opts.confirmFreshDeploy, w), Goals(cfg, opts.upgrades)[..i], w).world, q)
  {
    var ctx, goals := CtxOf(cfg, opts.confirmFreshDeploy, w), Goals(cfg, opts.upgrades);
    NotInUse(cfg, w, q);
    PlatformEnds(cfg, opts, w, q);
    StuckThroughout(ctx, q, goals, w);
    StuckHolds(ctx, goals, w, q);
    PrefixSubset(goals, i);
    NotRequested(cfg, opts.upgrades, q);
    StrandedThroughout(ctx, q, goals[..i], w);
  }

  lemma PrefixSubset(goals: seq<Goal>, i: nat)
    requires i <= |goals|
    ensures forall g :: g in goals[..i] ==> g in goals
  {
  }

  /** A run that succeeds uncut can be cut anywhere and started again exactly
      where it is not trapped. */
  lemma RestartsExactly(cfg: NetworkConfig, opts: Options, w: World)
    requires Valid(cfg) && RecordsHold(cfg, w) && (forall n :: n in opts.upgrades ==> IsEntry(n))
    requires RunAll(cfg, cfg.deployer, opts, w).ok
    ensures (forall k: nat, cut :: CutAt(cfg, opts, w, k, cut) ==> RunAll(cfg, cfg.deployer, opts, cut).ok)
            <==> !Trapped(cfg, opts, w)
  {
    if Trapped(cfg, opts, w) {
      var p, q := if Strands(cfg, opts, w, X, GitHub) then X else GitHub,
                  if Strands(cfg, opts, w, X, GitHub) then GitHub else X;
      var k, cut := TrappedFails(cfg, opts, w, p, q);
    } else {
      forall k: nat, cut | CutAt(cfg, opts, w, k, cut) ensures RunAll(cfg, cfg.deployer, opts, cut).ok {
        RestartSucceeds(cfg, opts, w, k, cut);
      }
    }
  }
}
