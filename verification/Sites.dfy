/** The circuit verifiers a run locates at its start stay where they are
    until its end, so a run started anywhere in between locates the same. */
module Sites {
  import opened Prelude
  import opened Config
  import opened Worlds
  import opened Converge
  import opened Stability
  import opened Interruption

  /** Two located sites no goal can tell apart in `w`: one address, and a
      named one against one in use only where it has code. */
  predicate SameSite(a: Site, b: Site, w: World) {
    a.address == b.address && (a.Named? == b.Named? || a.address in w.code)
  }

  predicate SameSites(a: Sites, b: Sites, w: World) {
    SameSite(a.bearerLink, b.bearerLink, w) && SameSite(a.oidcGoogle, b.oidcGoogle, w)
  }

  function LocatedAgain(ctx: Ctx, w: World): Ctx {
    ctx.(sites := Locate(ctx.cfg, w))
  }

  // ----- Stability -----

  /** A transaction that moves no Platform Verifier off the vendored code, nor
      onto it except at the located address. */
  predicate KeepsSites(ctx: Ctx, tx: Tx, w: World) {
    match tx
    case DeployProxy(n, slots) => n.PlatformVerifier? ==> slots.honk == ctx.CircuitAt(n.platform)
    case DeployCircuit(c) => CircuitMissing(ctx, w, c)
    case SetOn(n, change) =>
      && Wanted(ctx, n, change)
      && (change.VerifyWith? ==> CodeAt(w, change.honk) == Some(Vendored(ctx.cfg, CircuitOf(n.platform))))
    case Upgrade(_) => false
    case _ => true
  }

  lemma GoalsKeepSites(ctx: Ctx, g: Goal, w: World)
    requires WellFormed(g) && !g.Upgraded? && MoveFor(ctx, g, w).Send?
    ensures KeepsSites(ctx, Act(ctx, g, w), w)
  {
    ActsAreBenign(ctx, g, w);
  }

  lemma CodeStays(cfg: NetworkConfig, tx: Tx, w: World, w': World)
    requires Apply(cfg, tx, w) == Some(w')
    ensures forall a :: a in w.code ==> a in w'.code && w'.code[a] == w.code[a]
  {
  }

  /** The verifier of `p` after a transaction: as before, or the located one. */
  predicate VerifierKept(ctx: Ctx, p: Platform, w: World, w': World) {
    var n := PlatformVerifier(p);
    && (UsesVendored(ctx.cfg, w, p) ==> UsesVendored(ctx.cfg, w', p))
    && (UsesVendored(ctx.cfg, w', p) ==>
          || w'.proxies[n].slots.honk == ctx.CircuitAt(p)
          || (UsesVendored(ctx.cfg, w, p) && w'.proxies[n].slots.honk == w.proxies[n].slots.honk))
  }

  lemma DeployedVerifierKept(ctx: Ctx, p: Platform, n: Name, slots: Slots, w: World, w': World)
    requires KeepsSites(ctx, DeployProxy(n, slots), w) && Apply(ctx.cfg, DeployProxy(n, slots), w) == Some(w')
    ensures VerifierKept(ctx, p, w, w')
  {
  }

  lemma CircuitVerifierKept(ctx: Ctx, p: Platform, c: Circuit, w: World, w': World)
    requires Located(ctx)
    requires KeepsSites(ctx, DeployCircuit(c), w) && Apply(ctx.cfg, DeployCircuit(c), w) == Some(w')
    ensures VerifierKept(ctx, p, w, w')
  {
  }

  lemma SetVerifierKept(ctx: Ctx, p: Platform, n: Name, change: Change, w: World, w': World)
    requires KeepsSites(ctx, SetOn(n, change), w) && Apply(ctx.cfg, SetOn(n, change), w) == Some(w')
    ensures VerifierKept(ctx, p, w, w')
  {
  }

  lemma VerifierStays(ctx: Ctx, p: Platform, tx: Tx, w: World, w': World)
    requires Located(ctx) && KeepsSites(ctx, tx, w) && Apply(ctx.cfg, tx, w) == Some(w')
    ensures VerifierKept(ctx, p, w, w')
  {
    match tx {
      case DeployProxy(n, slots) => DeployedVerifierKept(ctx, p, n, slots, w, w');
      case DeployCircuit(c) => CircuitVerifierKept(ctx, p, c, w, w');
      case SetOn(n, change) => SetVerifierKept(ctx, p, n, change, w, w');
      case _ => assert w'.proxies == w.proxies && w'.code == w.code;
    }
  }

  lemma SiteStays(ctx: Ctx, c: Circuit, tx: Tx, w: World, w': World)
    requires Located(ctx) && KeepsSites(ctx, tx, w) && Apply(ctx.cfg, tx, w) == Some(w')
    requires SameSite(ctx.sites.Of(c), SiteOf(ctx.cfg, w, c), w)
    ensures SameSite(ctx.sites.Of(c), SiteOf(ctx.cfg, w', c), w')
  {
    CodeStays(ctx.cfg, tx, w, w');
    VerifierStays(ctx, X, tx, w, w');
    VerifierStays(ctx, GitHub, tx, w, w');
    VerifierStays(ctx, Google, tx, w, w');
  }

  lemma BothSitesStay(ctx: Ctx, tx: Tx, w: World, w': World)
    requires Located(ctx) && KeepsSites(ctx, tx, w) && Apply(ctx.cfg, tx, w) == Some(w')
    requires SameSites(ctx.sites, Locate(ctx.cfg, w), w)
    ensures SameSites(ctx.sites, Locate(ctx.cfg, w'), w')
  {
    SiteStays(ctx, BearerLink, tx, w, w');
    SiteStays(ctx, OidcGoogle, tx, w, w');
  }

  /** Wherever a run without upgrades is cut, locating again answers the same. */
  lemma {:induction false} SitesStay(ctx: Ctx, goals: seq<Goal>, w: World, k: nat)
    requires Valid(ctx.cfg) && Located(ctx)
    requires forall g :: g in goals ==> WellFormed(g) && !g.Upgraded?
    requires SameSites(ctx.sites, Locate(ctx.cfg, w), w)
    ensures var end := Interrupted(ctx, goals, w, k); SameSites(ctx.sites, Locate(ctx.cfg, end), end)
    decreases |goals|
  {
    if goals != [] {
      var g, rest := goals[0], goals[1..];
      assert g in goals;
      assert forall h :: h in rest ==> h in goals;
      match MoveFor(ctx, g, w) {
        case Stop =>
        case Send(txs) =>
          var act := Apply(ctx.cfg, Act(ctx, g, w), w);
          if k >= |txs| && act.Some? {
            GoalsKeepSites(ctx, g, w);
            BothSitesStay(ctx, Act(ctx, g, w), w, act.value);
            if Confirmed(ctx, g, act.value) { SitesStay(ctx, rest, act.value, k - |txs|); }
          }
        case _ => SitesStay(ctx, rest, w, k);
      }
    }
  }

  // ----- Runs that cannot tell the sites apart -----

  predicate Interchangeable(a: Ctx, b: Ctx, w: World) {
    a.cfg == b.cfg && a.confirm == b.confirm && SameSites(a.sites, b.sites, w)
  }

  lemma NeedsAgree(a: Ctx, b: Ctx, w: World)
    requires Interchangeable(a, b, w)
    ensures CircuitMissing(a, w, BearerLink) == CircuitMissing(b, w, BearerLink)
    ensures CircuitMissing(a, w, OidcGoogle) == CircuitMissing(b, w, OidcGoogle)
    ensures NeedsFactory(a, w) == NeedsFactory(b, w)
    ensures forall p :: a.CircuitAt(p) == b.CircuitAt(p)
  {
  }

  lemma SlotsAgree(a: Ctx, b: Ctx, w: World, n: Name)
    requires Interchangeable(a, b, w)
    ensures InitialSlots(a, n) == InitialSlots(b, n)
  {
  }

  lemma MovesAgree(a: Ctx, b: Ctx, g: Goal, w: World)
    requires Interchangeable(a, b, w)
    ensures MoveFor(a, g, w) == MoveFor(b, g, w)
  {
    NeedsAgree(a, b, w);
    if g.Deployed? { SlotsAgree(a, b, w, g.name); }
    if g.CircuitDeployed? {
      assert CircuitMissing(a, w, g.circuit) == CircuitMissing(b, w, g.circuit);
    }
  }

  lemma ConfirmsAgree(a: Ctx, b: Ctx, g: Goal)
    requires a.cfg == b.cfg
    ensures Reported(a, g) == Reported(b, g)
    ensures forall w :: Confirmed(a, g, w) == Confirmed(b, g, w)
  {
  }

  lemma PerformsAgree(a: Ctx, b: Ctx, g: Goal, w: World)
    requires Interchangeable(a, b, w)
    ensures Perform(a, g, w) == Perform(b, g, w)
  {
    MovesAgree(a, b, g, w);
    ConfirmsAgree(a, b, g);
  }

  lemma PerformKeepsInterchangeable(a: Ctx, b: Ctx, g: Goal, w: World)
    requires Interchangeable(a, b, w) && Perform(a, g, w).ok
    ensures Interchangeable(a, b, Perform(a, g, w).world)
  {
    if MoveFor(a, g, w).Send? {
      PerformSends(a, g, w);
      CodeStays(a.cfg, Act(a, g, w), w, Perform(a, g, w).world);
    }
  }

  lemma {:induction false} RunsAgree(a: Ctx, b: Ctx, goals: seq<Goal>, w: World)
    requires Interchangeable(a, b, w)
    ensures Run(a, goals, w) == Run(b, goals, w)
    decreases |goals|
  {
    if goals != [] {
      PerformsAgree(a, b, goals[0], w);
      var first := Perform(a, goals[0], w);
      if first.ok {
        PerformKeepsInterchangeable(a, b, goals[0], w);
        RunsAgree(a, b, goals[1..], first.world);
      }
    }
  }
}
