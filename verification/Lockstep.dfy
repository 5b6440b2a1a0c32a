/** Two runs of the same goals that located the circuit verifiers differently,
    side by side: where the one succeeds, so does the other. */
module Lockstep {
  import opened Prelude
  import opened Config
  import opened Worlds
  import opened Converge
  import opened Stability
  import opened Sites
  import opened GoalState
  import opened Flow
  import opened Rotation

  // ----- Chains alike -----

  function Pointing(proxy: Proxy, honk: Address): Proxy {
    proxy.(slots := proxy.slots.(honk := honk))
  }

  /** `u` is `v`, but a platform may point at another verifier, with the
      vendored code. */
  ghost predicate Alike(cfg: NetworkConfig, u: World, v: World) {
    && u == v.(proxies := u.proxies) && u.proxies.Keys == v.proxies.Keys
    && forall n :: n in v.proxies ==> AlikeAt(cfg, u, v, n)
  }

  predicate AlikeAt(cfg: NetworkConfig, u: World, v: World, n: Name)
    requires n in v.proxies
  {
    && n in u.proxies
    && (u.proxies[n] == v.proxies[n]
        || (n.PlatformVerifier? && Holds(cfg, u, n.platform)
            && u.proxies[n] == Pointing(v.proxies[n], SlotsOf(u, n).honk)))
  }

  // ----- Sites alike -----

  /** What a rotation onto the vendored code takes of a proxy. */
  predicate CanRotate(cfg: NetworkConfig, w: World, p: Platform) {
    var n := PlatformVerifier(p);
    && Answers(w, n, CircuitCodehash) && Answers(w, n, PlatformNotary) && Answers(w, n, SetTrustRoots)
    && w.proxies[n].owner == cfg.deployer && w.proxies[n].impl.pins == Some(Vendored(cfg, CircuitOf(p)))
  }

  /** The goals rotate `p` no earlier than they upgrade it. */
  ghost predicate UpgradeDue(goals: seq<Goal>, p: Platform)
    decreases |goals|
  {
    goals != [] ==>
      goals[0] == Upgraded(PlatformVerifier(p)) || (goals[0] != TrustRootsSet(p) && UpgradeDue(goals[1..], p))
  }

  ghost predicate Prepared(cfg: NetworkConfig, goals: seq<Goal>, u: World, p: Platform) {
    Holds(cfg, u, p) || CanRotate(cfg, u, p) || UpgradeDue(goals, p)
  }

  /** The new context has the site the old one has, or one with the vendored
      code; then the old one has code, and where that is foreign the platform
      can follow. */
  ghost predicate Resited(a: Ctx, b: Ctx, goals: seq<Goal>, u: World, p: Platform) {
    var c := CircuitOf(p);
    || a.sites.Of(c) == b.sites.Of(c)
    || (&& CodeAt(u, b.CircuitAt(p)) == Some(Vendored(a.cfg, c)) && a.CircuitAt(p) in u.code
        && (CodeAt(u, a.CircuitAt(p)) == Some(Vendored(a.cfg, c)) || Prepared(a.cfg, goals, u, p)))
  }

  ghost predicate AllResited(a: Ctx, b: Ctx, goals: seq<Goal>, u: World) {
    a.cfg == b.cfg && a.confirm == b.confirm && forall p :: Resited(a, b, goals, u, p)
  }

  lemma MissingAlike(a: Ctx, b: Ctx, goals: seq<Goal>, u: World, v: World, p: Platform)
    requires Resited(a, b, goals, u, p) && a.cfg == b.cfg && u.code == v.code
    ensures CircuitMissing(a, v, CircuitOf(p)) == CircuitMissing(b, u, CircuitOf(p))
    ensures CircuitMissing(a, v, CircuitOf(p)) ==> a.sites.Of(CircuitOf(p)) == b.sites.Of(CircuitOf(p))
  {
  }

  lemma NeedsAlike(a: Ctx, b: Ctx, goals: seq<Goal>, u: World, v: World)
    requires AllResited(a, b, goals, u) && Alike(a.cfg, u, v)
    ensures NeedsFactory(a, v) == NeedsFactory(b, u)
  {
    MissingAlike(a, b, goals, u, v, X);
    MissingAlike(a, b, goals, u, v, Google);
    assert forall n :: n in u.proxies <==> n in v.proxies;
  }

  // ----- What a goal leaves -----

  /** The goal is met, or its transaction lands and is confirmed. */
  predicate Leads(ctx: Ctx, g: Goal, w: World, w': World) {
    match MoveFor(ctx, g, w)
    case Keep => w' == w
    case Send(_) => Apply(ctx.cfg, Act(ctx, g, w), w) == Some(w') && Confirmed(ctx, g, w')
    case _ => false
  }

  lemma LeadsMeans(ctx: Ctx, g: Goal, w: World, w': World)
    requires Leads(ctx, g, w, w')
    ensures Perform(ctx, g, w).ok && Perform(ctx, g, w).world == w'
  {
    if MoveFor(ctx, g, w).Send? { PerformSends(ctx, g, w); }
  }

  lemma PerformLeads(ctx: Ctx, g: Goal, w: World)
    requires RecordsHold(ctx.cfg, w) && Located(ctx) && WellFormed(g) && Perform(ctx, g, w).ok
    ensures Leads(ctx, g, w, Perform(ctx, g, w).world)
  {
    NeverReused(ctx, g, w);
    if MoveFor(ctx, g, w).Send? { PerformSends(ctx, g, w); }
  }

  // ----- A transaction on chains alike -----

  /** The same change to a proxy that points where it did. */
  lemma RewrittenAlike(cfg: NetworkConfig, n: Name, a: Proxy, b: Proxy, u: World, v: World, u': World, v': World)
    requires Alike(cfg, u, v) && n in v.proxies
    requires a.slots.honk == u.proxies[n].slots.honk && b.slots.honk == v.proxies[n].slots.honk
    requires a == Pointing(b, a.slots.honk)
    requires u' == u.(proxies := u.proxies[n := a]) && v' == v.(proxies := v.proxies[n := b])
    ensures Alike(cfg, u', v')
  {
    forall m | m in v'.proxies ensures AlikeAt(cfg, u', v', m) { assert AlikeAt(cfg, u, v, m); }
  }

  lemma ChangedAlike(slots: Slots, honk: Address, change: Change)
    requires !change.VerifyWith?
    ensures Changed(slots.(honk := honk), change) == Changed(slots, change).(honk := honk)
    ensures Changed(slots, change).honk == slots.honk
  {
  }

  lemma SetterWrites(cfg: NetworkConfig, n: Name, change: Change, w: World, w': World)
    requires !change.VerifyWith? && Apply(cfg, SetOn(n, change), w) == Some(w')
    ensures n in w.proxies
    ensures w' == w.(proxies := w.proxies[n := w.proxies[n].(slots := Changed(SlotsOf(w, n), change))])
  {
  }

  lemma SetterAlike(cfg: NetworkConfig, n: Name, change: Change, u: World, v: World, v': World) returns (u': World)
    requires Alike(cfg, u, v) && !change.VerifyWith? && Apply(cfg, SetOn(n, change), v) == Some(v')
    ensures Apply(cfg, SetOn(n, change), u) == Some(u') && Alike(cfg, u', v')
  {
    assert AlikeAt(cfg, u, v, n);
    u' := Apply(cfg, SetOn(n, change), u).value;
    SetterWrites(cfg, n, change, u, u');
    SetterWrites(cfg, n, change, v, v');
    ChangedAlike(SlotsOf(v, n), SlotsOf(u, n).honk, change);
    ChangedAlike(SlotsOf(u, n), SlotsOf(u, n).honk, change);
    RewrittenAlike(cfg, n, u'.proxies[n], v'.proxies[n], u, v, u', v');
  }

  lemma UpgradeAlike(cfg: NetworkConfig, n: Name, u: World, v: World, v': World) returns (u': World)
    requires Alike(cfg, u, v) && Apply(cfg, Upgrade(n), v) == Some(v')
    ensures Apply(cfg, Upgrade(n), u) == Some(u') && Alike(cfg, u', v')
  {
    assert AlikeAt(cfg, u, v, n);
    u' := Apply(cfg, Upgrade(n), u).value;
    RewrittenAlike(cfg, n, u'.proxies[n], v'.proxies[n], u, v, u', v');
  }

  lemma DeployAlike(cfg: NetworkConfig, n: Name, slots: Slots, u: World, v: World, v': World) returns (u': World)
    requires Alike(cfg, u, v) && Apply(cfg, DeployProxy(n, slots), v) == Some(v')
    ensures Apply(cfg, DeployProxy(n, slots), u) == Some(u') && Alike(cfg, u', v')
  {
    SameFactory(cfg, u, v, n);
    if n.HandleEscrow? && IdentityRegistry in v.proxies { assert AlikeAt(cfg, u, v, IdentityRegistry); }
    u' := Apply(cfg, DeployProxy(n, slots), u).value;
    forall m | m in v'.proxies ensures AlikeAt(cfg, u', v', m) {
      if m in v.proxies { assert AlikeAt(cfg, u, v, m); }
    }
  }

  lemma SameFactory(cfg: NetworkConfig, u: World, v: World, n: Name)
    requires Alike(cfg, u, v)
    ensures FactoryDeploys(cfg, u, n) == FactoryDeploys(cfg, v, n)
  {
    assert n in u.proxies <==> n in v.proxies;
  }

  lemma CircuitAlike(cfg: NetworkConfig, c: Circuit, u: World, v: World, v': World) returns (u': World)
    requires Alike(cfg, u, v) && Apply(cfg, DeployCircuit(c), v) == Some(v')
    ensures Apply(cfg, DeployCircuit(c), u) == Some(u') && Alike(cfg, u', v')
  {
    SameFactory(cfg, u, v, OwnVerifier(cfg, c));
    u' := Apply(cfg, DeployCircuit(c), u).value;
    CodeStays(cfg, DeployCircuit(c), u, u');
    forall m | m in v'.proxies ensures AlikeAt(cfg, u', v', m) { assert AlikeAt(cfg, u, v, m); }
  }

  /** Transactions about neither proxies nor circuits. */
  predicate ChainTx(tx: Tx) {
    !tx.SetOn? && !tx.Upgrade? && !tx.DeployProxy? && !tx.DeployCircuit?
  }

  lemma ChainTxAlike(cfg: NetworkConfig, tx: Tx, u: World, v: World, v': World) returns (u': World)
    requires u == v.(proxies := u.proxies) && ChainTx(tx) && Apply(cfg, tx, v) == Some(v')
    ensures Apply(cfg, tx, u) == Some(u') && u' == v'.(proxies := u.proxies)
    ensures v'.proxies == v.proxies && v'.code == v.code
  {
    u' := v'.(proxies := u.proxies);
  }

  lemma ChainAlike(cfg: NetworkConfig, tx: Tx, u: World, v: World, v': World) returns (u': World)
    requires Alike(cfg, u, v) && ChainTx(tx) && Apply(cfg, tx, v) == Some(v')
    ensures Apply(cfg, tx, u) == Some(u') && Alike(cfg, u', v')
  {
    u' := ChainTxAlike(cfg, tx, u, v, v');
    forall m | m in v'.proxies ensures AlikeAt(cfg, u', v', m) { assert AlikeAt(cfg, u, v, m); }
  }

  lemma TxAlike(cfg: NetworkConfig, tx: Tx, u: World, v: World, v': World) returns (u': World)
    requires Alike(cfg, u, v) && !HandsNotaryBack(tx) && Apply(cfg, tx, v) == Some(v')
    ensures Apply(cfg, tx, u) == Some(u') && Alike(cfg, u', v')
  {
    match tx {
      case SetOn(n, change) => u' := SetterAlike(cfg, n, change, u, v, v');
      case Upgrade(n) => u' := UpgradeAlike(cfg, n, u, v, v');
      case DeployProxy(n, slots) => u' := DeployAlike(cfg, n, slots, u, v, v');
      case DeployCircuit(c) => u' := CircuitAlike(cfg, c, u, v, v');
      case _ => u' := ChainAlike(cfg, tx, u, v, v');
    }
  }

  // ----- A goal on chains alike -----

  /** Goals that neither read nor write a verifier pointer or a site. */
  predicate Siteless(g: Goal) {
    !g.TrustRootsSet? && !g.CircuitDeployed? && !g.FactoryOwned? && !(g.Deployed? && g.name.PlatformVerifier?)
  }

  lemma SettingsAlike(a: Ctx, b: Ctx, g: Goal, u: World, v: World)
    requires a.cfg == b.cfg && a.confirm == b.confirm && Alike(a.cfg, u, v)
    requires g.NotaryTrusted? || g.FeeCharged? || g.RecipientSet? || g.RegistryWired? || g.EscrowBound? || g.RootsWired?
             || g.GoogleRootsRead? || g.Registered? || g.Accepting?
    ensures MoveFor(a, g, v) == MoveFor(b, g, u)
  {
    SlotsAlike(a.cfg, u, v, NotaryService);
    SlotsAlike(a.cfg, u, v, IdentityRegistry);
    SlotsAlike(a.cfg, u, v, CeremonyProofVerifier);
    SlotsAlike(a.cfg, u, v, HandleEscrow);
    SlotsAlike(a.cfg, u, v, GoogleJwtRoots);
    SlotsAlike(a.cfg, u, v, PlatformVerifier(Google));
  }

  lemma SlotsAlike(cfg: NetworkConfig, u: World, v: World, n: Name)
    requires Alike(cfg, u, v)
    ensures n in u.proxies <==> n in v.proxies
    ensures n in v.proxies ==>
      && u.proxies[n].impl == v.proxies[n].impl && u.proxies[n].owner == v.proxies[n].owner
      && SlotsOf(u, n).(honk := ZERO) == SlotsOf(v, n).(honk := ZERO)
  {
    assert n in u.proxies.Keys <==> n in v.proxies.Keys;
    if n in v.proxies { assert AlikeAt(cfg, u, v, n); }
  }

  lemma ChainGoalsAlike(a: Ctx, b: Ctx, g: Goal, u: World, v: World)
    requires a.cfg == b.cfg && a.confirm == b.confirm && Alike(a.cfg, u, v)
    requires !StackGoal(g) && !g.FactoryOwned?
    ensures MoveFor(a, g, v) == MoveFor(b, g, u)
  {
  }

  lemma DeploymentAlike(a: Ctx, b: Ctx, n: Name, u: World, v: World)
    requires a.cfg == b.cfg && Alike(a.cfg, u, v) && !n.PlatformVerifier?
    ensures MoveFor(a, Deployed(n), v) == MoveFor(b, Deployed(n), u)
  {
    SlotsAlike(a.cfg, u, v, n);
    assert InitialSlots(a, n) == InitialSlots(b, n);
  }

  lemma SitelessAlike(a: Ctx, b: Ctx, g: Goal, u: World, v: World)
    requires a.cfg == b.cfg && a.confirm == b.confirm && Alike(a.cfg, u, v) && Siteless(g)
    ensures MoveFor(a, g, v) == MoveFor(b, g, u)
  {
    match g {
      case Deployed(n) => DeploymentAlike(a, b, n, u, v);
      case Upgraded(_) =>
      case _ =>
        if StackGoal(g) { SettingsAlike(a, b, g, u, v); } else { ChainGoalsAlike(a, b, g, u, v); }
    }
  }

  lemma ConfirmedAlike(a: Ctx, b: Ctx, g: Goal, u: World, v: World)
    requires a.cfg == b.cfg && Alike(a.cfg, u, v) && Confirmed(a, g, v)
    ensures Confirmed(b, g, u)
  {
  }

  /** Where the moves are equal and rotate nothing, the goal leads alike. */
  lemma SameMoveLeads(a: Ctx, b: Ctx, g: Goal, u: World, v: World, v': World) returns (u': World)
    requires a.cfg == b.cfg && Alike(a.cfg, u, v) && !g.TrustRootsSet?
    requires MoveFor(a, g, v) == MoveFor(b, g, u) && Leads(a, g, v, v')
    ensures Leads(b, g, u, u') && Alike(a.cfg, u', v')
  {
    u' := u;
    if MoveFor(a, g, v).Send? {
      var tx := Act(a, g, v);
      if HandsNotaryBack(tx) { NotaryAsStored(a, g, v); }
      u' := TxAlike(a.cfg, tx, u, v, v');
      ConfirmedAlike(a, b, g, u', v');
    }
  }

  lemma PlatformDeployAlike(a: Ctx, b: Ctx, goals: seq<Goal>, p: Platform, u: World, v: World, v': World)
    returns (u': World)
    requires AllResited(a, b, goals, u) && Alike(a.cfg, u, v) && Leads(a, Deployed(PlatformVerifier(p)), v, v')
    ensures Leads(b, Deployed(PlatformVerifier(p)), u, u') && Alike(a.cfg, u', v')
  {
    var n := PlatformVerifier(p);
    SlotsAlike(a.cfg, u, v, n);
    u' := u;
    if n !in v.proxies {
      assert Resited(a, b, goals, u, p);
      FreshSlots(a, b, p);
      u' := FreshAlike(a.cfg, n, InitialSlots(a, n), b.CircuitAt(p), u, v, v');
    }
  }

  lemma FreshSlots(a: Ctx, b: Ctx, p: Platform)
    requires a.cfg == b.cfg
    ensures var n := PlatformVerifier(p);
            InitialSlots(b, n) == InitialSlots(a, n).(honk := b.CircuitAt(p)) && InitialSlots(a, n).honk == a.CircuitAt(p)
  {
  }

  lemma FreshAlike(cfg: NetworkConfig, n: Name, slots: Slots, honk: Address, u: World, v: World, v': World)
    returns (u': World)
    requires n.PlatformVerifier? && Alike(cfg, u, v) && CodeAt(u, honk) == Some(Vendored(cfg, CircuitOf(n.platform)))
    requires Apply(cfg, DeployProxy(n, slots), v) == Some(v')
    ensures Apply(cfg, DeployProxy(n, slots.(honk := honk)), u) == Some(u') && Alike(cfg, u', v')
  {
    SameFactory(cfg, u, v, n);
    u' := Apply(cfg, DeployProxy(n, slots.(honk := honk)), u).value;
    forall m | m in v'.proxies ensures AlikeAt(cfg, u', v', m) {
      if m in v.proxies { assert AlikeAt(cfg, u, v, m); }
    }
  }

  // ----- A rotation on chains alike -----

  lemma PointAlike(cfg: NetworkConfig, p: Platform, honk: Address, u: World, v: World)
    returns (u': World)
    requires Alike(cfg, u, v) && PlatformVerifier(p) in v.proxies && CanRotate(cfg, u, p)
    requires CodeAt(u, honk) == Some(Vendored(cfg, CircuitOf(p)))
    ensures var n := PlatformVerifier(p);
            Apply(cfg, SetOn(n, VerifyWith(SlotsOf(u, n).notary, honk)), u) == Some(u')
            && u' == u.(proxies := u.proxies[n := Pointing(u.proxies[n], honk)]) && Alike(cfg, u', v)
  {
    var n := PlatformVerifier(p);
    u' := Apply(cfg, SetOn(n, VerifyWith(SlotsOf(u, n).notary, honk)), u).value;
    forall m | m in v.proxies ensures AlikeAt(cfg, u', v, m) { assert AlikeAt(cfg, u, v, m); }
  }

  /** Moving the other chain's pointer changes nothing where this one's holds
      the vendored code. */
  lemma MovedAlike(cfg: NetworkConfig, p: Platform, honk: Address, u: World, v: World, v': World)
    requires Alike(cfg, u, v) && PlatformVerifier(p) in v.proxies && Holds(cfg, u, p)
    requires v' == v.(proxies := v.proxies[PlatformVerifier(p) := Pointing(v.proxies[PlatformVerifier(p)], honk)])
    ensures Alike(cfg, u, v')
  {
    forall m | m in v'.proxies ensures AlikeAt(cfg, u, v', m) { assert AlikeAt(cfg, u, v, m); }
  }

  lemma RotationDemands(ctx: Ctx, p: Platform, w: World)
    requires MoveFor(ctx, TrustRootsSet(p), w).Send?
    ensures var n := PlatformVerifier(p);
            && Answers(w, n, CircuitCodehash) && Answers(w, n, PlatformNotary) && !Holds(ctx.cfg, w, p)
            && w.proxies[n].impl.pins == Some(Vendored(ctx.cfg, CircuitOf(p)))
            && CodeAt(w, ctx.CircuitAt(p)) == Some(Vendored(ctx.cfg, CircuitOf(p)))
            && Act(ctx, TrustRootsSet(p), w) == SetOn(n, VerifyWith(SlotsOf(w, n).notary, ctx.CircuitAt(p)))
  {
  }

  lemma RotationWrites(cfg: NetworkConfig, n: Name, honk: Address, w: World, w': World)
    requires n in w.proxies && Apply(cfg, SetOn(n, VerifyWith(SlotsOf(w, n).notary, honk)), w) == Some(w')
    ensures Answers(w, n, SetTrustRoots) && w.proxies[n].owner == cfg.deployer
    ensures w' == w.(proxies := w.proxies[n := Pointing(w.proxies[n], honk)])
  {
  }

  lemma RotationPoints(ctx: Ctx, p: Platform, w: World, w': World)
    requires MoveFor(ctx, TrustRootsSet(p), w).Send?
    requires Apply(ctx.cfg, Act(ctx, TrustRootsSet(p), w), w) == Some(w')
    ensures var n := PlatformVerifier(p);
            && CanRotate(ctx.cfg, w, p) && !Holds(ctx.cfg, w, p)
            && CodeAt(w, ctx.CircuitAt(p)) == Some(Vendored(ctx.cfg, CircuitOf(p)))
            && w' == w.(proxies := w.proxies[n := Pointing(w.proxies[n], ctx.CircuitAt(p))])
  {
    RotationDemands(ctx, p, w);
    RotationWrites(ctx.cfg, PlatformVerifier(p), ctx.CircuitAt(p), w, w');
  }

  lemma KeptByHolding(ctx: Ctx, p: Platform, w: World)
    requires Answers(w, PlatformVerifier(p), HonkVerifier) && Holds(ctx.cfg, w, p)
    ensures MoveFor(ctx, TrustRootsSet(p), w).Keep?
  {
  }

  lemma RotatesOnto(ctx: Ctx, p: Platform, w: World)
    requires Answers(w, PlatformVerifier(p), HonkVerifier) && !Holds(ctx.cfg, w, p) && CanRotate(ctx.cfg, w, p)
    requires CodeAt(w, ctx.CircuitAt(p)) == Some(Vendored(ctx.cfg, CircuitOf(p)))
    ensures var n := PlatformVerifier(p);
            MoveFor(ctx, TrustRootsSet(p), w) == Send([SetOn(n, VerifyWith(SlotsOf(w, n).notary, ctx.CircuitAt(p)))])
  {
  }

  lemma RotationReads(ctx: Ctx, p: Platform, w: World, w': World)
    requires Leads(ctx, TrustRootsSet(p), w, w')
    ensures Answers(w, PlatformVerifier(p), HonkVerifier)
    ensures MoveFor(ctx, TrustRootsSet(p), w).Keep? && !Holds(ctx.cfg, w, p) ==>
              SlotsOf(w, PlatformVerifier(p)).honk == ctx.CircuitAt(p)
  {
  }

  lemma HeldAlike(cfg: NetworkConfig, u: World, v: World, p: Platform)
    requires Alike(cfg, u, v) && PlatformVerifier(p) in v.proxies && !Holds(cfg, u, p)
    ensures u.proxies[PlatformVerifier(p)] == v.proxies[PlatformVerifier(p)] && !Holds(cfg, v, p)
  {
    assert AlikeAt(cfg, u, v, PlatformVerifier(p));
  }

  lemma RotationAlike(a: Ctx, b: Ctx, goals: seq<Goal>, p: Platform, u: World, v: World, v': World)
    returns (u': World)
    requires goals != [] && goals[0] == TrustRootsSet(p)
    requires AllResited(a, b, goals, u) && Alike(a.cfg, u, v) && Leads(a, TrustRootsSet(p), v, v')
    ensures Leads(b, TrustRootsSet(p), u, u') && Alike(a.cfg, u', v')
  {
    var n, cfg := PlatformVerifier(p), a.cfg;
    RotationReads(a, p, v, v');
    SlotsAlike(cfg, u, v, n);
    if Holds(cfg, u, p) {
      KeptByHolding(b, p, u);
      u' := u;
      if MoveFor(a, TrustRootsSet(p), v).Send? {
        RotationPoints(a, p, v, v');
        MovedAlike(cfg, p, a.CircuitAt(p), u, v, v');
      }
    } else {
      HeldAlike(cfg, u, v, p);
      assert Resited(a, b, goals, u, p);
      if MoveFor(a, TrustRootsSet(p), v).Send? {
        u' := RotateBoth(a, b, p, u, v, v');
      } else if a.sites.Of(CircuitOf(p)) == b.sites.Of(CircuitOf(p)) {
        assert MoveFor(b, TrustRootsSet(p), u).Keep?;
        u' := u;
      } else {
        assert CanRotate(cfg, u, p);
        u' := RotateAlone(b, p, u, v);
      }
    }
  }

  lemma RotateAlone(b: Ctx, p: Platform, u: World, v: World) returns (u': World)
    requires Alike(b.cfg, u, v) && PlatformVerifier(p) in v.proxies
    requires Answers(u, PlatformVerifier(p), HonkVerifier) && !Holds(b.cfg, u, p) && CanRotate(b.cfg, u, p)
    requires CodeAt(u, b.CircuitAt(p)) == Some(Vendored(b.cfg, CircuitOf(p)))
    ensures Leads(b, TrustRootsSet(p), u, u') && Alike(b.cfg, u', v) && Holds(b.cfg, u', p)
  {
    RotatesOnto(b, p, u);
    u' := PointAlike(b.cfg, p, b.CircuitAt(p), u, v);
  }

  lemma RotateBoth(a: Ctx, b: Ctx, p: Platform, u: World, v: World, v': World) returns (u': World)
    requires a.cfg == b.cfg && Alike(a.cfg, u, v) && PlatformVerifier(p) in v.proxies && !Holds(a.cfg, u, p)
    requires u.proxies[PlatformVerifier(p)] == v.proxies[PlatformVerifier(p)]
    requires MoveFor(a, TrustRootsSet(p), v).Send? && Leads(a, TrustRootsSet(p), v, v')
    requires a.sites.Of(CircuitOf(p)) == b.sites.Of(CircuitOf(p))
             || CodeAt(u, b.CircuitAt(p)) == Some(Vendored(a.cfg, CircuitOf(p)))
    ensures Leads(b, TrustRootsSet(p), u, u') && Alike(a.cfg, u', v')
  {
    RotationPoints(a, p, v, v');
    RotationReads(a, p, v, v');
    u' := RotateAlone(b, p, u, v);
    MovedAlike(a.cfg, p, a.CircuitAt(p), u', v, v');
  }

  // ----- One goal after another -----

  lemma StepAlike(a: Ctx, b: Ctx, goals: seq<Goal>, u: World, v: World, v': World) returns (u': World)
    requires goals != [] && AllResited(a, b, goals, u) && Alike(a.cfg, u, v) && Leads(a, goals[0], v, v')
    ensures Leads(b, goals[0], u, u') && Alike(a.cfg, u', v')
  {
    var g := goals[0];
    if g.TrustRootsSet? {
      u' := RotationAlike(a, b, goals, g.platform, u, v, v');
    } else if g.Deployed? && g.name.PlatformVerifier? {
      u' := PlatformDeployAlike(a, b, goals, g.name.platform, u, v, v');
    } else {
      if g.CircuitDeployed? {
        CircuitGoalsAlike(a, b, goals, g.circuit, u, v);
      } else if g.FactoryOwned? {
        NeedsAlike(a, b, goals, u, v);
      } else {
        SitelessAlike(a, b, g, u, v);
      }
      u' := SameMoveLeads(a, b, g, u, v, v');
    }
  }

  lemma CircuitGoalsAlike(a: Ctx, b: Ctx, goals: seq<Goal>, c: Circuit, u: World, v: World)
    requires AllResited(a, b, goals, u) && Alike(a.cfg, u, v)
    ensures MoveFor(a, CircuitDeployed(c), v) == MoveFor(b, CircuitDeployed(c), u)
  {
    var p := if c.BearerLink? then X else Google;
    assert Resited(a, b, goals, u, p);
    MissingAlike(a, b, goals, u, v, p);
  }

  lemma HoldsOn(ctx: Ctx, p: Platform, g: Goal, w: World, w': World)
    requires Holds(ctx.cfg, w, p) && Leads(ctx, g, w, w')
    ensures Holds(ctx.cfg, w', p)
  {
    if MoveFor(ctx, g, w).Send? {
      var tx := Act(ctx, g, w);
      if HandsNotaryBack(tx) {
        NotaryAsStored(ctx, g, w);
        RotationPoints(ctx, g.platform, w, w');
      }
      TxKeepsHolding(ctx.cfg, p, tx, w, w');
    }
  }

  lemma TxKeepsHolding(cfg: NetworkConfig, p: Platform, tx: Tx, w: World, w': World)
    requires Holds(cfg, w, p) && !Rotates(tx, p) && Apply(cfg, tx, w) == Some(w')
    ensures Holds(cfg, w', p)
  {
    PointerStays(cfg, PlatformVerifier(p), tx, w, w');
    CodeStays(cfg, tx, w, w');
  }

  lemma UpgradedCanRotate(cfg: NetworkConfig, p: Platform, w: World, w': World)
    requires Apply(cfg, Upgrade(PlatformVerifier(p)), w) == Some(w')
    ensures CanRotate(cfg, w', p)
  {
  }

  lemma OwnerStays(cfg: NetworkConfig, n: Name, tx: Tx, w: World, w': World)
    requires n in w.proxies && Apply(cfg, tx, w) == Some(w')
    ensures n in w'.proxies && w'.proxies[n].owner == w.proxies[n].owner
  {
  }

  lemma TxKeepsCanRotate(cfg: NetworkConfig, p: Platform, tx: Tx, w: World, w': World)
    requires CanRotate(cfg, w, p) && Apply(cfg, tx, w) == Some(w')
    ensures CanRotate(cfg, w', p)
  {
    var n := PlatformVerifier(p);
    if tx == Upgrade(n) {
      UpgradedCanRotate(cfg, p, w, w');
    } else {
      OwnerStays(cfg, n, tx, w, w');
      ImplementationStays(cfg, n, tx, w, w');
    }
  }

  lemma PreparedOn(ctx: Ctx, goals: seq<Goal>, p: Platform, w: World, w': World)
    requires goals != [] && Prepared(ctx.cfg, goals, w, p) && Leads(ctx, goals[0], w, w')
    ensures Prepared(ctx.cfg, goals[1..], w', p)
  {
    if Holds(ctx.cfg, w, p) {
      HoldsOn(ctx, p, goals[0], w, w');
    } else if CanRotate(ctx.cfg, w, p) {
      if MoveFor(ctx, goals[0], w).Send? { TxKeepsCanRotate(ctx.cfg, p, Act(ctx, goals[0], w), w, w'); }
    } else if goals[0] == Upgraded(PlatformVerifier(p)) {
      UpgradedCanRotate(ctx.cfg, p, w, w');
    }
  }

  lemma ResitedOn(a: Ctx, b: Ctx, goals: seq<Goal>, u: World, u': World)
    requires goals != [] && AllResited(a, b, goals, u) && Leads(b, goals[0], u, u')
    ensures AllResited(a, b, goals[1..], u')
  {
    if MoveFor(b, goals[0], u).Send? { CodeStays(b.cfg, Act(b, goals[0], u), u, u'); }
    forall p ensures Resited(a, b, goals[1..], u', p) {
      assert Resited(a, b, goals, u, p);
      if Prepared(a.cfg, goals, u, p) { PreparedOn(b, goals, p, u, u'); }
    }
  }

  /** The run with the other sites succeeds, and leaves a chain alike. */
  lemma {:induction false} RunFollows(a: Ctx, b: Ctx, goals: seq<Goal>, u: World, v: World)
    requires Located(a) && RecordsHold(a.cfg, v) && (forall g :: g in goals ==> WellFormed(g))
    requires AllResited(a, b, goals, u) && Alike(a.cfg, u, v) && Run(a, goals, v).ok
    ensures Run(b, goals, u).ok && Alike(a.cfg, Run(b, goals, u).world, Run(a, goals, v).world)
    decreases |goals|
  {
    if goals != [] {
      var g := goals[0];
      assert g in goals && forall h :: h in goals[1..] ==> h in goals;
      RunTrace(a, goals, v);
      PerformLeads(a, g, v);
      var v' := Perform(a, g, v).world;
      if MoveFor(a, g, v).Send? { ApplyKeepsRecords(a.cfg, Act(a, g, v), v); }
      var u' := StepAlike(a, b, goals, u, v, v');
      LeadsMeans(b, g, u, u');
      ResitedOn(a, b, goals, u, u');
      RunFollows(a, b, goals[1..], u', v');
      RunTrace(b, goals, u);
    }
  }
}
