/** A Platform Verifier whose implementation pins other code is rotated onto a
    new release's verifier by the run that upgrades it, and by no other. */
module Rotation {
  import opened Prelude
  import opened Config
  import opened Worlds
  import opened Converge
  import opened Stability
  import opened Interruption
  import opened Sites
  import opened Convergence
  import opened GoalState
  import opened Progress

  /** The implementation accepts other code than the release's. */
  predicate PinsOther(cfg: NetworkConfig, w: World, p: Platform) {
    var n := PlatformVerifier(p);
    n in w.proxies && w.proxies[n].impl.pins != Some(Vendored(cfg, CircuitOf(p)))
  }

  /** The verifier in use is there and is not the release's. */
  predicate UsesOther(cfg: NetworkConfig, w: World, p: Platform) {
    var n := PlatformVerifier(p);
    n in w.proxies && CodeAt(w, SlotsOf(w, n).honk).Some? && !Holds(cfg, w, p)
  }

  predicate Rotates(tx: Tx, p: Platform) {
    tx.SetOn? && tx.name == PlatformVerifier(p) && tx.change.VerifyWith?
  }

  ghost predicate Rotated(trace: seq<Tx>, p: Platform) {
    exists tx :: tx in trace && Rotates(tx, p)
  }

  lemma RotatedAppend(a: seq<Tx>, b: seq<Tx>, p: Platform)
    ensures Rotated(a + b, p) <==> Rotated(a, p) || Rotated(b, p)
  {
    forall tx ensures tx in a + b <==> tx in a || tx in b {}
  }

  // ----- One goal -----

  lemma NotOntoOther(ctx: Ctx, p: Platform, g: Goal, w: World)
    requires PinsOther(ctx.cfg, w, p) && MoveFor(ctx, g, w).Send?
    ensures !Rotates(Act(ctx, g, w), p)
  {
  }

  lemma ImplementationStays(cfg: NetworkConfig, n: Name, tx: Tx, w: World, w': World)
    requires n in w.proxies && tx != Upgrade(n) && Apply(cfg, tx, w) == Some(w')
    ensures n in w'.proxies && w'.proxies[n].impl == w.proxies[n].impl
  {
  }

  lemma OtherStays(cfg: NetworkConfig, p: Platform, tx: Tx, w: World, w': World)
    requires UsesOther(cfg, w, p) && !Rotates(tx, p) && Apply(cfg, tx, w) == Some(w')
    ensures UsesOther(cfg, w', p)
  {
    CodeStays(cfg, tx, w, w');
    PointerStays(cfg, PlatformVerifier(p), tx, w, w');
  }

  /** What a goal sends rotates only by the transaction that acts. */
  lemma RotatesByActing(ctx: Ctx, p: Platform, g: Goal, w: World)
    requires Rotated(Perform(ctx, g, w).trace, p)
    ensures MoveFor(ctx, g, w).Send? && Rotates(Act(ctx, g, w), p)
  {
    if MoveFor(ctx, g, w).Send? { SendShape(ctx, g, w); SentInPart(ctx, g, w); }
  }

  lemma SentInPart(ctx: Ctx, g: Goal, w: World)
    requires MoveFor(ctx, g, w).Send?
    ensures forall tx :: tx in Perform(ctx, g, w).trace ==> tx in MoveFor(ctx, g, w).txs
  {
    if Perform(ctx, g, w).ok { PerformSends(ctx, g, w); } else { FailedTrace(ctx, g, w); }
  }

  lemma LandedIsInTrace(ctx: Ctx, g: Goal, w: World)
    requires MoveFor(ctx, g, w).Send? && Apply(ctx.cfg, Act(ctx, g, w), w).Some?
    ensures Act(ctx, g, w) in Perform(ctx, g, w).trace
  {
    SendShape(ctx, g, w);
    if Perform(ctx, g, w).ok { PerformSends(ctx, g, w); } else { FailedTrace(ctx, g, w); }
  }

  // ----- A run -----

  lemma RunTrace(ctx: Ctx, goals: seq<Goal>, w: World)
    requires goals != []
    ensures var first := Perform(ctx, goals[0], w);
            && Run(ctx, goals, w).trace == (if first.ok then first.trace + Run(ctx, goals[1..], first.world).trace else first.trace)
            && Run(ctx, goals, w).world == (if first.ok then Run(ctx, goals[1..], first.world).world else first.world)
  {
  }

  /** A run without its upgrade never rotates a platform that pins other code. */
  lemma {:induction false} NeverRotated(ctx: Ctx, p: Platform, goals: seq<Goal>, w: World)
    requires PinsOther(ctx.cfg, w, p) && Upgraded(PlatformVerifier(p)) !in goals
    ensures !Rotated(Run(ctx, goals, w).trace, p)
    decreases |goals|
  {
    if goals != [] {
      var g, first := goals[0], Perform(ctx, goals[0], w);
      RunTrace(ctx, goals, w);
      if Rotated(first.trace, p) {
        RotatesByActing(ctx, p, g, w);
        NotOntoOther(ctx, p, g, w);
      }
      if first.ok {
        PinStays(ctx, p, g, w);
        NeverRotated(ctx, p, goals[1..], first.world);
        RotatedAppend(first.trace, Run(ctx, goals[1..], first.world).trace, p);
      }
    }
  }

  lemma PinStays(ctx: Ctx, p: Platform, g: Goal, w: World)
    requires PinsOther(ctx.cfg, w, p) && g != Upgraded(PlatformVerifier(p))
    ensures PinsOther(ctx.cfg, Perform(ctx, g, w).world, p)
  {
    if MoveFor(ctx, g, w).Send? {
      PerformedWorld(ctx, g, w);
      NoOtherUpgrade(ctx, p, g, w);
      var next := Apply(ctx.cfg, Act(ctx, g, w), w);
      if next.Some? { ImplementationStays(ctx.cfg, PlatformVerifier(p), Act(ctx, g, w), w, next.value); }
    }
  }

  lemma NoOtherUpgrade(ctx: Ctx, p: Platform, g: Goal, w: World)
    requires MoveFor(ctx, g, w).Send? && g != Upgraded(PlatformVerifier(p))
    ensures Act(ctx, g, w) != Upgrade(PlatformVerifier(p))
  {
  }

  /** A platform on other code stays on it unless a run rotates it. */
  lemma {:induction false} UnlessRotated(ctx: Ctx, p: Platform, goals: seq<Goal>, w: World)
    requires UsesOther(ctx.cfg, w, p) && !Rotated(Run(ctx, goals, w).trace, p)
    ensures UsesOther(ctx.cfg, Run(ctx, goals, w).world, p)
    decreases |goals|
  {
    if goals != [] {
      var first := Perform(ctx, goals[0], w);
      RunTrace(ctx, goals, w);
      if first.ok { RotatedAppend(first.trace, Run(ctx, goals[1..], first.world).trace, p); }
      StepLeavesOther(ctx, p, goals[0], w);
      if first.ok { UnlessRotated(ctx, p, goals[1..], first.world); }
    }
  }

  lemma StepLeavesOther(ctx: Ctx, p: Platform, g: Goal, w: World)
    requires UsesOther(ctx.cfg, w, p) && !Rotated(Perform(ctx, g, w).trace, p)
    ensures UsesOther(ctx.cfg, Perform(ctx, g, w).world, p)
  {
    if MoveFor(ctx, g, w).Send? {
      PerformedWorld(ctx, g, w);
      var next := Apply(ctx.cfg, Act(ctx, g, w), w);
      if next.Some? {
        LandedIsInTrace(ctx, g, w);
        OtherStays(ctx.cfg, p, Act(ctx, g, w), w, next.value);
      }
    }
  }

  /** Without its upgrade requested, a run neither rotates a platform that pins
      and uses other code nor succeeds. */
  lemma RotationNeedsUpgrade(cfg: NetworkConfig, opts: Options, w: World, p: Platform)
    requires Valid(cfg) && RecordsHold(cfg, w)
    requires NameHoldsVendored(cfg, w, BearerLink) && NameHoldsVendored(cfg, w, OidcGoogle)
    requires PinsOther(cfg, w, p) && UsesOther(cfg, w, p) && PlatformVerifier(p) !in opts.upgrades
    ensures var run := RunAll(cfg, cfg.deployer, opts, w); !run.ok && !Rotated(run.trace, p)
  {
    var ctx, goals := CtxOf(cfg, opts.confirmFreshDeploy, w), Goals(cfg, opts.upgrades);
    if Upgraded(PlatformVerifier(p)) in goals { GoalIndexed(cfg, opts.upgrades, Upgraded(PlatformVerifier(p))); }
    NeverRotated(ctx, p, goals, w);
    UnlessRotated(ctx, p, goals, w);
    VendoredIsNotOther(cfg, Run(ctx, goals, w).world, p);
    if Run(ctx, goals, w).ok { FinishedIsVendored(cfg, opts, w); }
  }

  lemma VendoredIsNotOther(cfg: NetworkConfig, w: World, p: Platform)
    ensures UsesVendored(cfg, w, p) ==> !UsesOther(cfg, w, p)
  {
  }

  /** On a chain that only lacks the upgrade of `p`, a run rotates `p` onto the
      release's verifier, and succeeds, exactly when it upgrades it. */
  lemma RotatesExactlyWithUpgrade(cfg: NetworkConfig, opts: Options, w: World, p: Platform)
    requires Valid(cfg) && (forall n :: n in opts.upgrades ==> IsEntry(n))
    requires Renewable(cfg, opts.(upgrades := [PlatformVerifier(p)] + opts.upgrades), w)
    requires PinsOther(cfg, w, p) && UsesOther(cfg, w, p)
    ensures var run := RunAll(cfg, cfg.deployer, opts, w);
            && (run.ok <==> PlatformVerifier(p) in opts.upgrades)
            && (Rotated(run.trace, p) <==> PlatformVerifier(p) in opts.upgrades)
            && (run.ok ==> UsesVendored(cfg, run.world, p))
  {
    if PlatformVerifier(p) in opts.upgrades {
      RequestedTwice(cfg, opts, w, PlatformVerifier(p));
      RunSucceeds(cfg, opts, w);
      VendoredIsNotOther(cfg, RunAll(cfg, cfg.deployer, opts, w).world, p);
      if !Rotated(RunAll(cfg, cfg.deployer, opts, w).trace, p) {
        UnlessRotated(CtxOf(cfg, opts.confirmFreshDeploy, w), p, Goals(cfg, opts.upgrades), w);
      }
    } else {
      RotationNeedsUpgrade(cfg, opts, w, p);
    }
  }

  lemma RequestedTwice(cfg: NetworkConfig, opts: Options, w: World, n: Name)
    requires n in opts.upgrades
    ensures Renewable(cfg, opts.(upgrades := [n] + opts.upgrades), w) <==> Renewable(cfg, opts, w)
  {
    var more := [n] + opts.upgrades;
    ElementsCons(more);
    assert more[1..] == opts.upgrades && n in Elements(opts.upgrades);
    assert Elements(more) == Elements(opts.upgrades);
  }
}
