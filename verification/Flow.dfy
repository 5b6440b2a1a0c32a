/** What a run may rely on when it acts: the factory is the deployer's, every
    address it passes on holds code, and every upgrade it was asked for has
    run, once, before anything is read through its proxy. */
module Flow {
  import opened Prelude
  import opened Config
  import opened Worlds
  import opened Converge
  import opened Stability
  import opened Interruption
  import opened Recovery
  import opened Convergence

  /** The world a run has when it reaches goal `i`, all before it done. */
  ghost predicate Reaches(cfg: NetworkConfig, opts: Options, w: World, i: nat, at: World) {
    var goals := Goals(cfg, opts.upgrades);
    var before := Run(CtxOf(cfg, opts.confirmFreshDeploy, w), goals[..if i <= |goals| then i else |goals|], w);
    i < |goals| && before.ok && before.world == at
  }

  lemma OrderedPrefix(ctx: Ctx, goals: seq<Goal>, w: World, i: nat)
    requires Ordered(goals) && HandOnIsLast(ctx, goals, w) && i <= |goals|
    ensures Ordered(goals[..i]) && HandOnIsLast(ctx, goals[..i], w)
  {
    assert forall g :: g in goals[..i] ==> g in goals;
    forall j, m | 0 <= j < i && goals[..i][j].OwnershipAccepted? && NeededBy(m)
      ensures m in goals[..i][..j] || Met(ctx, m, w)
    {
      assert goals[..i][..j] == goals[..j];
    }
  }

  /** Everything a run passed on its way to goal `i` is met there. */
  lemma PassedIsMet(cfg: NetworkConfig, opts: Options, w: World, i: nat, at: World, g: Goal)
    requires Valid(cfg) && RecordsHold(cfg, w) && Reaches(cfg, opts, w, i, at)
    requires g in Goals(cfg, opts.upgrades)[..i] && !g.Upgraded?
    ensures Met(CtxOf(cfg, opts.confirmFreshDeploy, w), g, at)
  {
    var ctx := CtxOf(cfg, opts.confirmFreshDeploy, w);
    var goals := Goals(cfg, opts.upgrades);
    GoalsAreOrdered(ctx, opts.upgrades, w);
    OrderedPrefix(ctx, goals, w, i);
    FinishedIsMet(ctx, goals[..i], w, g);
  }

  // ----- The owner gate -----

  lemma GateComesFirst(cfg: NetworkConfig, u: seq<Name>, i: nat)
    requires i < |Goals(cfg, u)| && NeededBy(Goals(cfg, u)[i])
    ensures FactoryOwned in Goals(cfg, u)[..i]
  {
    var goals := Goals(cfg, u);
    assert goals[3] == FactoryOwned && goals[0] == FreshDeployConfirmed;
    assert goals[1] == Create2DeployerInstalled && goals[2] == FactoryInstalled;
    assert i > 3;
    assert goals[..i][3] == FactoryOwned;
  }

  lemma NeededSends(ctx: Ctx, g: Goal, w: World)
    requires NeededBy(g) && !Met(ctx, g, w)
    ensures NeedsFactory(ctx, w)
  {
    if g.Deployed? { EntriesComplete(g.name); }
  }

  lemma EntriesComplete(n: Name)
    requires IsEntry(n)
    ensures n in ENTRIES
  {
    match n
    case NotaryService => assert ENTRIES[0] == n;
    case CeremonyProofVerifier => assert ENTRIES[1] == n;
    case IdentityRegistry => assert ENTRIES[2] == n;
    case HandleEscrow => assert ENTRIES[3] == n;
    case GoogleJwtRoots => assert ENTRIES[4] == n;
    case PlatformVerifier(X) => assert ENTRIES[5] == n;
    case PlatformVerifier(GitHub) => assert ENTRIES[6] == n;
    case PlatformVerifier(Google) => assert ENTRIES[7] == n;
  }

  lemma EntriesAreEntries(i: nat)
    requires i < |ENTRIES|
    ensures IsEntry(ENTRIES[i])
  {
    assert IsEntry(ENTRIES[0]) && IsEntry(ENTRIES[1]) && IsEntry(ENTRIES[2]) && IsEntry(ENTRIES[3]);
    assert IsEntry(ENTRIES[4]) && IsEntry(ENTRIES[5]) && IsEntry(ENTRIES[6]) && IsEntry(ENTRIES[7]);
  }

  /** The gate checked once, up front, covers every deploy of the run: where a
      goal is about to go through `factory.deploy`, the deployer owns it. */
  lemma OwnerGateCovers(cfg: NetworkConfig, opts: Options, w: World, i: nat, at: World)
    requires Valid(cfg) && RecordsHold(cfg, w) && Reaches(cfg, opts, w, i, at)
    requires NeededBy(Goals(cfg, opts.upgrades)[i])
    requires !Met(CtxOf(cfg, opts.confirmFreshDeploy, w), Goals(cfg, opts.upgrades)[i], at)
    ensures at.factory.Some? && at.factory.value.owner == cfg.deployer
  {
    var ctx := CtxOf(cfg, opts.confirmFreshDeploy, w);
    GateComesFirst(cfg, opts.upgrades, i);
    PassedIsMet(cfg, opts, w, i, at, FactoryOwned);
    NeededSends(ctx, Goals(cfg, opts.upgrades)[i], at);
  }

  // ----- The flow of one list of goals -----

  /** Contracts whose addresses the transaction of a goal passes on. */
  function Passes(g: Goal): set<Name> {
    match g
    case Deployed(HandleEscrow) => {IdentityRegistry}
    case Deployed(GoogleJwtRoots) => {NotaryService}
    case Deployed(PlatformVerifier(Google)) => {GoogleJwtRoots}
    case Deployed(PlatformVerifier(_)) => {NotaryService}
    case RegistryWired => {CeremonyProofVerifier}
    case RootsWired => {NotaryService}
    case GoogleRootsRead => {GoogleJwtRoots}
    case Registered(p) => {PlatformVerifier(p)}
    case _ => {}
  }

  /** Proxies a goal reads through. */
  function ReadsThrough(g: Goal): set<Name> {
    match g
    case Deployed(HandleEscrow) => {IdentityRegistry}
    case NotaryTrusted => {NotaryService}
    case FeeCharged => {NotaryService}
    case RecipientSet => {NotaryService}
    case RegistryWired => {IdentityRegistry}
    case EscrowBound => {HandleEscrow}
    case RootsWired => {GoogleJwtRoots}
    case TrustRootsSet(p) => {PlatformVerifier(p)}
    case GoogleRootsRead => {PlatformVerifier(Google)}
    case Registered(_) => {CeremonyProofVerifier}
    case Accepting(_) => {IdentityRegistry, CeremonyProofVerifier}
    case _ => {}
  }

  function Deploys(g: Goal): set<Name> {
    if g.Deployed? then {g.name} else {}
  }

  /** Passed and read contracts are deployed first, and upgraded before they
      are read. */
  ghost predicate Flows(deployed: set<Name>, read: set<Name>, goals: seq<Goal>)
    decreases |goals|
  {
    goals == [] || (
      && Passes(goals[0]) <= deployed && ReadsThrough(goals[0]) <= deployed
      && (goals[0].Upgraded? ==> goals[0].name in deployed && goals[0].name !in read)
      && Flows(deployed + Deploys(goals[0]), read + ReadsThrough(goals[0]), goals[1..]))
  }

  function AllDeployed(goals: seq<Goal>): set<Name> {
    if goals == [] then {} else Deploys(goals[0]) + AllDeployed(goals[1..])
  }

  function AllRead(goals: seq<Goal>): set<Name> {
    if goals == [] then {} else ReadsThrough(goals[0]) + AllRead(goals[1..])
  }

  lemma {:induction false} FlowsAppend(d: set<Name>, r: set<Name>, a: seq<Goal>, b: seq<Goal>)
    requires Flows(d, r, a) && Flows(d + AllDeployed(a), r + AllRead(a), b)
    ensures Flows(d, r, a + b)
    decreases |a|
  {
    if a == [] {
      assert a + b == b && d + {} == d && r + {} == r;
    } else {
      assert (a + b)[1..] == a[1..] + b;
      assert d + AllDeployed(a) == d + Deploys(a[0]) + AllDeployed(a[1..]);
      assert r + AllRead(a) == r + ReadsThrough(a[0]) + AllRead(a[1..]);
      FlowsAppend(d + Deploys(a[0]), r + ReadsThrough(a[0]), a[1..], b);
    }
  }

  lemma {:induction false} AllAppend(a: seq<Goal>, b: seq<Goal>)
    ensures AllDeployed(a + b) == AllDeployed(a) + AllDeployed(b)
    ensures AllRead(a + b) == AllRead(a) + AllRead(b)
  {
    if a == [] {
      assert a + b == b;
    } else {
      assert (a + b)[1..] == a[1..] + b;
      AllAppend(a[1..], b);
    }
  }

  /** What index `i` of a flowing list may rely on. */
  lemma {:induction false} FlowsAt(d: set<Name>, r: set<Name>, goals: seq<Goal>, i: nat)
    requires Flows(d, r, goals) && i < |goals|
    ensures forall n :: n in Passes(goals[i]) ==> n in d || Deployed(n) in goals[..i]
    ensures goals[i].Upgraded? ==> forall j :: 0 <= j < i ==> goals[i].name !in ReadsThrough(goals[j])
    ensures goals[i].Upgraded? ==> goals[i].name !in r && (goals[i].name in d || Deployed(goals[i].name) in goals[..i])
    decreases |goals|
  {
    if i > 0 {
      var g, rest := goals[0], goals[1..];
      FlowsAt(d + Deploys(g), r + ReadsThrough(g), rest, i - 1);
      assert goals[i] == rest[i - 1];
      assert goals[..i] == [g] + rest[..i - 1];
      forall j | 0 <= j < i && goals[i].Upgraded? ensures goals[i].name !in ReadsThrough(goals[j]) {
        if j > 0 { assert goals[j] == rest[j - 1]; }
      }
    }
  }

  // ----- The goals of a run flow -----

  lemma {:induction false} UpgradesFlow(d: set<Name>, r: set<Name>, u: seq<Name>, n: Name)
    requires n in d && n !in r
    ensures Flows(d, r, UpgradesOf(u, n))
    ensures AllDeployed(UpgradesOf(u, n)) == {} && AllRead(UpgradesOf(u, n)) == {}
    decreases |u|
  {
    if u != [] {
      UpgradesFlow(d, r, u[1..], n);
      if u[0] == n {
        assert UpgradesOf(u, n)[1..] == UpgradesOf(u[1..], n);
        assert d + {} == d && r + {} == r;
      } else {
        assert UpgradesOf(u, n) == UpgradesOf(u[1..], n);
      }
    }
  }

  /** One section: goals that deploy, the upgrades, goals that read. */
  lemma SectionFlows(d: set<Name>, r: set<Name>, u: seq<Name>, first: seq<Goal>, n: Name, last: seq<Goal>)
    requires Flows(d, r, first) && n in d + AllDeployed(first) && n !in r + AllRead(first)
    requires Flows(d + AllDeployed(first), r + AllRead(first), last)
    ensures Flows(d, r, first + UpgradesOf(u, n) + last)
    ensures AllDeployed(first + UpgradesOf(u, n) + last) == AllDeployed(first) + AllDeployed(last)
    ensures AllRead(first + UpgradesOf(u, n) + last) == AllRead(first) + AllRead(last)
  {
    var mid := UpgradesOf(u, n);
    UpgradesFlow(d + AllDeployed(first), r + AllRead(first), u, n);
    FlowsAppend(d, r, first, mid);
    AllAppend(first, mid);
    AllAppend(first + mid, last);
    assert d + AllDeployed(first + mid) == d + AllDeployed(first);
    assert r + AllRead(first + mid) == r + AllRead(first);
    FlowsAppend(d, r, first + mid, last);
  }

  lemma FlowsOne(d: set<Name>, r: set<Name>, g: Goal)
    requires Passes(g) <= d && ReadsThrough(g) <= d && !g.Upgraded?
    ensures Flows(d, r, [g]) && AllDeployed([g]) == Deploys(g) && AllRead([g]) == ReadsThrough(g)
  {
    assert [g][1..] == [];
  }

  lemma FlowsPair(d: set<Name>, r: set<Name>, a: Goal, b: Goal)
    requires Passes(a) <= d && ReadsThrough(a) <= d && !a.Upgraded? && !b.Upgraded?
    requires Passes(b) <= d + Deploys(a) && ReadsThrough(b) <= d + Deploys(a)
    ensures Flows(d, r, [a, b])
    ensures AllDeployed([a, b]) == Deploys(a) + Deploys(b) && AllRead([a, b]) == ReadsThrough(a) + ReadsThrough(b)
  {
    FlowsOne(d + Deploys(a), r + ReadsThrough(a), b);
    assert [a, b][1..] == [b];
  }

  lemma FlowsTriple(d: set<Name>, r: set<Name>, a: Goal, b: Goal, c: Goal)
    requires !a.Upgraded? && !b.Upgraded? && !c.Upgraded?
    requires Deploys(a) == {} && Deploys(b) == {} && Deploys(c) == {}
    requires Passes(a) + Passes(b) + Passes(c) <= d && ReadsThrough(a) + ReadsThrough(b) + ReadsThrough(c) <= d
    ensures Flows(d, r, [a, b, c]) && AllDeployed([a, b, c]) == {}
    ensures AllRead([a, b, c]) == ReadsThrough(a) + ReadsThrough(b) + ReadsThrough(c)
  {
    FlowsPair(d + {}, r + ReadsThrough(a), b, c);
    assert d + {} == d;
    assert [a, b, c][1..] == [b, c];
  }

  lemma NotaryFlows(d: set<Name>, r: set<Name>, u: seq<Name>)
    requires NotaryService !in r
    ensures Flows(d, r, NotarySection(u))
    ensures AllDeployed(NotarySection(u)) == {NotaryService} && AllRead(NotarySection(u)) == {NotaryService}
  {
    var first := [Deployed(NotaryService)];
    FlowsOne(d, r, first[0]);
    FlowsTriple(d + {NotaryService}, r + {}, NotaryTrusted, FeeCharged, RecipientSet);
    SectionFlows(d, r, u, first, NotaryService, [NotaryTrusted, FeeCharged, RecipientSet]);
  }

  lemma ProofVerifierFlows(d: set<Name>, r: set<Name>, u: seq<Name>)
    requires CeremonyProofVerifier !in r
    ensures Flows(d, r, ProofVerifierSection(u))
    ensures AllDeployed(ProofVerifierSection(u)) == {CeremonyProofVerifier} && AllRead(ProofVerifierSection(u)) == {}
  {
    var first := [Deployed(CeremonyProofVerifier)];
    FlowsOne(d, r, first[0]);
    SectionFlows(d, r, u, first, CeremonyProofVerifier, []);
    assert ProofVerifierSection(u) == first + UpgradesOf(u, CeremonyProofVerifier) + [];
  }

  /** A section of one proxy and one goal reading through it. */
  lemma SimpleFlows(d: set<Name>, r: set<Name>, u: seq<Name>, n: Name, last: Goal)
    requires Passes(Deployed(n)) <= d && ReadsThrough(Deployed(n)) <= d
    requires n !in r && n !in ReadsThrough(Deployed(n))
    requires Passes(last) <= d + {n} && ReadsThrough(last) == {n} && !last.Upgraded? && Deploys(last) == {}
    ensures Flows(d, r, [Deployed(n)] + UpgradesOf(u, n) + [last])
    ensures AllDeployed([Deployed(n)] + UpgradesOf(u, n) + [last]) == {n}
    ensures AllRead([Deployed(n)] + UpgradesOf(u, n) + [last]) == ReadsThrough(Deployed(n)) + {n}
  {
    FlowsOne(d, r, Deployed(n));
    FlowsOne(d + AllDeployed([Deployed(n)]), r + AllRead([Deployed(n)]), last);
    SectionFlows(d, r, u, [Deployed(n)], n, [last]);
  }

  lemma PlatformHeadFlows(d: set<Name>, r: set<Name>, p: Platform)
    requires {NotaryService, CeremonyProofVerifier, GoogleJwtRoots} <= d
    ensures var first := [CircuitDeployed(CircuitOf(p)), Deployed(PlatformVerifier(p))];
            && Flows(d, r, first) && AllDeployed(first) == {PlatformVerifier(p)} && AllRead(first) == {}
            && d + AllDeployed(first) == d + {PlatformVerifier(p)} && r + AllRead(first) == r
  {
    FlowsPair(d, r, CircuitDeployed(CircuitOf(p)), Deployed(PlatformVerifier(p)));
  }

  function PlatformTail(p: Platform): seq<Goal> {
    [TrustRootsSet(p)] + (if p.Google? then [GoogleRootsRead] else []) + [Registered(p)]
  }

  lemma PlatformTailFlows(d: set<Name>, r: set<Name>, p: Platform)
    requires {CeremonyProofVerifier, GoogleJwtRoots, PlatformVerifier(p)} <= d
    ensures Flows(d, r, PlatformTail(p)) && AllDeployed(PlatformTail(p)) == {}
    ensures AllRead(PlatformTail(p)) == {PlatformVerifier(p), CeremonyProofVerifier}
  {
    if p.Google? {
      FlowsTriple(d, r, TrustRootsSet(p), GoogleRootsRead, Registered(p));
      assert PlatformTail(p) == [TrustRootsSet(p), GoogleRootsRead, Registered(p)];
    } else {
      FlowsPair(d, r, TrustRootsSet(p), Registered(p));
      assert PlatformTail(p) == [TrustRootsSet(p), Registered(p)];
    }
  }

  lemma PlatformParts(u: seq<Name>, p: Platform)
    ensures PlatformSection(u, p) ==
            [CircuitDeployed(CircuitOf(p)), Deployed(PlatformVerifier(p))]
            + UpgradesOf(u, PlatformVerifier(p)) + PlatformTail(p)
  {
  }

  lemma PlatformFlows(d: set<Name>, r: set<Name>, u: seq<Name>, p: Platform)
    requires {NotaryService, CeremonyProofVerifier, GoogleJwtRoots} <= d && PlatformVerifier(p) !in r
    ensures Flows(d, r, PlatformSection(u, p))
    ensures AllDeployed(PlatformSection(u, p)) == {PlatformVerifier(p)}
    ensures AllRead(PlatformSection(u, p)) == {PlatformVerifier(p), CeremonyProofVerifier}
  {
    PlatformHeadFlows(d, r, p);
    PlatformTailFlows(d + {PlatformVerifier(p)}, r, p);
    PlatformParts(u, p);
    SectionFlows(d, r, u, [CircuitDeployed(CircuitOf(p)), Deployed(PlatformVerifier(p))], PlatformVerifier(p),
      PlatformTail(p));
  }

  /** A section behind goals that flow. */
  lemma SectionAfter(early: seq<Goal>, section: seq<Goal>, deployed: set<Name>, read: set<Name>)
    requires Flows({}, {}, early)
    requires Flows(AllDeployed(early), AllRead(early), section)
    requires AllDeployed(section) == deployed && AllRead(section) == read
    ensures Flows({}, {}, early + section)
    ensures AllDeployed(early + section) == AllDeployed(early) + deployed
    ensures AllRead(early + section) == AllRead(early) + read
  {
    assert {} + AllDeployed(early) == AllDeployed(early) && {} + AllRead(early) == AllRead(early);
    FlowsAppend({}, {}, early, section);
    AllAppend(early, section);
  }

  /** A section of one proxy and one goal reading through it, behind goals
      that flow. */
  lemma SimpleAfter(u: seq<Name>, early: seq<Goal>, n: Name, last: Goal, section: seq<Goal>)
    requires Flows({}, {}, early) && section == [Deployed(n)] + UpgradesOf(u, n) + [last]
    requires Passes(Deployed(n)) + ReadsThrough(Deployed(n)) <= AllDeployed(early)
    requires n !in AllRead(early) && n !in ReadsThrough(Deployed(n))
    requires Passes(last) <= AllDeployed(early) + {n} && ReadsThrough(last) == {n}
    requires !last.Upgraded? && Deploys(last) == {}
    ensures Flows({}, {}, early + section)
    ensures AllDeployed(early + section) == AllDeployed(early) + {n}
    ensures AllRead(early + section) == AllRead(early) + (ReadsThrough(Deployed(n)) + {n})
  {
    SimpleFlows(AllDeployed(early), AllRead(early), u, n, last);
    SectionAfter(early, section, {n}, ReadsThrough(Deployed(n)) + {n});
  }

  lemma EarlyCoreFlows(u: seq<Name>)
    ensures var early := NotarySection(u) + ProofVerifierSection(u);
            && Flows({}, {}, early)
            && AllDeployed(early) == {NotaryService, CeremonyProofVerifier} && AllRead(early) == {NotaryService}
  {
    NotaryFlows({}, {}, u);
    ProofVerifierFlows({NotaryService}, {NotaryService}, u);
    SectionAfter(NotarySection(u), ProofVerifierSection(u), {CeremonyProofVerifier}, {});
  }

  /** What the platform sections find behind them. */
  ghost predicate CoreFacts(deployed: set<Name>, read: set<Name>) {
    && {NotaryService, CeremonyProofVerifier, IdentityRegistry, GoogleJwtRoots} <= deployed
    && read <= {NotaryService, IdentityRegistry, HandleEscrow, GoogleJwtRoots}
  }

  lemma RegistryAfter(u: seq<Name>, early: seq<Goal>)
    requires Flows({}, {}, early)
    requires AllDeployed(early) == {NotaryService, CeremonyProofVerifier} && AllRead(early) == {NotaryService}
    ensures var next := early + RegistrySection(u);
            && Flows({}, {}, next) && AllRead(next) == {NotaryService, IdentityRegistry}
            && AllDeployed(next) == {NotaryService, CeremonyProofVerifier, IdentityRegistry}
  {
    SimpleAfter(u, early, IdentityRegistry, RegistryWired, RegistrySection(u));
  }

  lemma EscrowAfter(u: seq<Name>, early: seq<Goal>)
    requires Flows({}, {}, early) && AllRead(early) == {NotaryService, IdentityRegistry}
    requires AllDeployed(early) == {NotaryService, CeremonyProofVerifier, IdentityRegistry}
    ensures var next := early + EscrowSection(u);
            && Flows({}, {}, next) && AllRead(next) == {NotaryService, IdentityRegistry, HandleEscrow}
            && {NotaryService, CeremonyProofVerifier, IdentityRegistry} <= AllDeployed(next)
  {
    SimpleAfter(u, early, HandleEscrow, EscrowBound, EscrowSection(u));
  }

  lemma CoreFlows(u: seq<Name>)
    ensures var core :=
              NotarySection(u) + ProofVerifierSection(u) + RegistrySection(u) + EscrowSection(u) + RootsSection(u);
            Flows({}, {}, core) && CoreFacts(AllDeployed(core), AllRead(core))
  {
    var early := NotarySection(u) + ProofVerifierSection(u);
    EarlyCoreFlows(u);
    RegistryAfter(u, early);
    EscrowAfter(u, early + RegistrySection(u));
    SimpleAfter(u, early + RegistrySection(u) + EscrowSection(u), GoogleJwtRoots, RootsWired, RootsSection(u));
  }

  /** One more platform behind goals that flow. */
  lemma PlatformAfter(u: seq<Name>, p: Platform, early: seq<Goal>)
    requires Flows({}, {}, early) && PlatformVerifier(p) !in AllRead(early)
    requires {NotaryService, CeremonyProofVerifier, GoogleJwtRoots} <= AllDeployed(early)
    ensures Flows({}, {}, early + PlatformSection(u, p))
    ensures AllDeployed(early + PlatformSection(u, p)) == AllDeployed(early) + {PlatformVerifier(p)}
    ensures AllRead(early + PlatformSection(u, p)) == AllRead(early) + {PlatformVerifier(p), CeremonyProofVerifier}
  {
    PlatformFlows(AllDeployed(early), AllRead(early), u, p);
    SectionAfter(early, PlatformSection(u, p), {PlatformVerifier(p)}, {PlatformVerifier(p), CeremonyProofVerifier});
  }

  lemma AcceptingAfter(early: seq<Goal>)
    requires Flows({}, {}, early) && {CeremonyProofVerifier, IdentityRegistry} <= AllDeployed(early)
    ensures Flows({}, {}, early + ACCEPTING)
  {
    FlowsTriple(AllDeployed(early), AllRead(early), Accepting(X), Accepting(GitHub), Accepting(Google));
    SectionAfter(early, ACCEPTING, {}, {CeremonyProofVerifier, IdentityRegistry});
  }

  lemma StackFlows(u: seq<Name>)
    ensures Flows({}, {}, StackGoals(u))
  {
    var core :=
      NotarySection(u) + ProofVerifierSection(u) + RegistrySection(u) + EscrowSection(u) + RootsSection(u);
    CoreFlows(u);
    PlatformAfter(u, X, core);
    var x := core + PlatformSection(u, X);
    PlatformAfter(u, GitHub, x);
    var github := x + PlatformSection(u, GitHub);
    PlatformAfter(u, Google, github);
    AcceptingAfter(github + PlatformSection(u, Google));
  }

  /** Goals that pass nothing on and read through nothing flow anywhere. */
  lemma {:induction false} PlainFlows(d: set<Name>, r: set<Name>, goals: seq<Goal>)
    requires forall g :: g in goals ==>
      Passes(g) == {} && ReadsThrough(g) == {} && !g.Upgraded? && Deploys(g) == {}
    ensures Flows(d, r, goals) && AllDeployed(goals) == {} && AllRead(goals) == {}
    decreases |goals|
  {
    if goals != [] {
      assert goals[0] in goals;
      PlainFlows(d + {}, r + {}, goals[1..]);
    }
  }

  lemma BackIsPlain(cfg: NetworkConfig, g: Goal)
    requires g in BackGoals(cfg)
    ensures Passes(g) == {} && ReadsThrough(g) == {} && !g.Upgraded? && Deploys(g) == {}
  {
    SafeGoalsShape(cfg, 0);
  }

  lemma GoalsFlow(cfg: NetworkConfig, u: seq<Name>)
    ensures Flows({}, {}, Goals(cfg, u))
  {
    var gate := INSTALL + [FactoryOwned];
    PlainFlows({}, {}, gate);
    StackFlows(u);
    assert {} + AllDeployed(gate) == {} && {} + AllRead(gate) == {};
    FlowsAppend({}, {}, gate, StackGoals(u));
    forall g | g in BackGoals(cfg)
      ensures Passes(g) == {} && ReadsThrough(g) == {} && !g.Upgraded? && Deploys(g) == {}
    {
      BackIsPlain(cfg, g);
    }
    PlainFlows({} + AllDeployed(FrontGoals(u)), {} + AllRead(FrontGoals(u)), BackGoals(cfg));
    FlowsAppend({}, {}, FrontGoals(u), BackGoals(cfg));
  }

  // ----- No dangling wiring -----

  /** Whether the chain holds code at an address apply wires something to. */
  ghost predicate HoldsCode(cfg: NetworkConfig, w: World, a: Address) {
    a in w.code || exists n :: n in w.proxies && IsEntry(n) && At(cfg, n) == a
  }

  /** The contract addresses a transaction hands to an initializer or setter;
      zero stands for none. */
  function Passed(tx: Tx): set<Address> {
    match tx
    case DeployProxy(_, slots) => {slots.pointer, slots.notary, slots.honk, slots.roots} - {ZERO}
    case SetOn(_, PointAt(to)) => {to}
    case SetOn(_, VerifyWith(notary, honk)) => {notary, honk} - {ZERO}
    case SetOn(_, ReadRootsFrom(roots)) => {roots}
    case SetOn(_, RegisterVerifier(_, verifier)) => {verifier}
    case _ => {}
  }

  /** A rotation: it hands the proxy's own notary back to it. */
  predicate HandsNotaryBack(tx: Tx) {
    tx.SetOn? && tx.change.VerifyWith?
  }

  /** The notary a proxy stores is none or holds code. */
  ghost predicate NotaryHolds(cfg: NetworkConfig, w: World, n: Name) {
    n in w.proxies && (SlotsOf(w, n).notary == ZERO || HoldsCode(cfg, w, SlotsOf(w, n).notary))
  }

  lemma NotaryAsStored(ctx: Ctx, g: Goal, w: World)
    requires MoveFor(ctx, g, w).Send? && HandsNotaryBack(Act(ctx, g, w))
    ensures var tx := Act(ctx, g, w);
            && g.TrustRootsSet? && tx.name == PlatformVerifier(g.platform) && tx.name in w.proxies
            && tx.change == VerifyWith(SlotsOf(w, tx.name).notary, ctx.CircuitAt(g.platform))
            && tx.change.honk in w.code
  {
  }

  lemma PassedIsDeclared(ctx: Ctx, g: Goal, w: World, a: Address)
    requires MoveFor(ctx, g, w).Send? && !HandsNotaryBack(Act(ctx, g, w)) && a in Passed(Act(ctx, g, w))
    ensures a in w.code || exists n :: n in Passes(g) && IsEntry(n) && At(ctx.cfg, n) == a
  {
    match g
    case Deployed(HandleEscrow) => assert IdentityRegistry in Passes(g);
    case Deployed(GoogleJwtRoots) => assert NotaryService in Passes(g);
    case Deployed(PlatformVerifier(Google)) => assert GoogleJwtRoots in Passes(g);
    case Deployed(PlatformVerifier(X)) => assert NotaryService in Passes(g);
    case Deployed(PlatformVerifier(GitHub)) => assert NotaryService in Passes(g);
    case RegistryWired => assert CeremonyProofVerifier in Passes(g);
    case RootsWired => assert NotaryService in Passes(g);
    case GoogleRootsRead => assert GoogleJwtRoots in Passes(g);
    case Registered(p) => assert PlatformVerifier(p) in Passes(g);
    case _ =>
  }

  lemma PassedHoldsCode(ctx: Ctx, g: Goal, w: World, a: Address)
    requires MoveFor(ctx, g, w).Send? && !HandsNotaryBack(Act(ctx, g, w)) && a in Passed(Act(ctx, g, w))
    requires forall n :: n in Passes(g) && IsEntry(n) ==> n in w.proxies
    ensures HoldsCode(ctx.cfg, w, a)
  {
    PassedIsDeclared(ctx, g, w, a);
  }

  lemma RotationPasses(cfg: NetworkConfig, w: World, n: Name, honk: Address)
    requires n in w.proxies && honk in w.code
    ensures var tx := SetOn(n, VerifyWith(SlotsOf(w, n).notary, honk));
            (forall a :: a in Passed(tx) ==> HoldsCode(cfg, w, a)) <==> NotaryHolds(cfg, w, n)
  {
    var notary := SlotsOf(w, n).notary;
    var tx := SetOn(n, VerifyWith(notary, honk));
    if notary != ZERO { assert notary in Passed(tx); }
    assert forall a :: a in Passed(tx) ==> a == notary || a == honk;
  }

  lemma PassesAfterDeploy(cfg: NetworkConfig, u: seq<Name>, i: nat, n: Name)
    requires i < |Goals(cfg, u)| && n in Passes(Goals(cfg, u)[i]) && IsEntry(n)
    ensures Deployed(n) in Goals(cfg, u)[..i]
  {
    GoalsFlow(cfg, u);
    FlowsAt({}, {}, Goals(cfg, u), i);
  }

  lemma PassesIsDeployed(cfg: NetworkConfig, opts: Options, w: World, i: nat, at: World, n: Name)
    requires Valid(cfg) && RecordsHold(cfg, w) && Reaches(cfg, opts, w, i, at)
    requires n in Passes(Goals(cfg, opts.upgrades)[i]) && IsEntry(n)
    ensures n in at.proxies
  {
    PassesAfterDeploy(cfg, opts.upgrades, i, n);
    PassedIsMet(cfg, opts, w, i, at, Deployed(n));
  }

  /** Every contract address a run hands on holds code when it is sent, unless
      a platform is rotated whose stored notary holds none: that pointer is
      handed back as it was found. */
  lemma NoDanglingWiring(cfg: NetworkConfig, opts: Options, w: World, i: nat, at: World)
    requires Valid(cfg) && RecordsHold(cfg, w) && Reaches(cfg, opts, w, i, at)
    requires MoveFor(CtxOf(cfg, opts.confirmFreshDeploy, w), Goals(cfg, opts.upgrades)[i], at).Send?
    ensures var tx := Act(CtxOf(cfg, opts.confirmFreshDeploy, w), Goals(cfg, opts.upgrades)[i], at);
            (forall a :: a in Passed(tx) ==> HoldsCode(cfg, at, a)) <==>
            (HandsNotaryBack(tx) ==> NotaryHolds(cfg, at, tx.name))
  {
    var ctx, g := CtxOf(cfg, opts.confirmFreshDeploy, w), Goals(cfg, opts.upgrades)[i];
    var tx := Act(ctx, g, at);
    if HandsNotaryBack(tx) {
      NotaryAsStored(ctx, g, at);
      RotationPasses(cfg, at, tx.name, tx.change.honk);
    } else {
      forall n | n in Passes(g) && IsEntry(n) ensures n in at.proxies {
        PassesIsDeployed(cfg, opts, w, i, at, n);
      }
      forall a | a in Passed(tx) ensures HoldsCode(cfg, at, a) {
        PassedHoldsCode(ctx, g, at, a);
      }
    }
  }

  // ----- Safes only with their release -----

  /** Everything in front of the goals of the Safes. */
  function BeforeSafes(u: seq<Name>): seq<Goal> {
    FrontGoals(u) + (OWNERSHIP + [SafeReleaseChecked])
  }

  lemma SafesComeLast(cfg: NetworkConfig, u: seq<Name>)
    ensures Goals(cfg, u) == BeforeSafes(u) + SafeGoals(cfg, 0)
  {
    AppendAssociates(FrontGoals(u), OWNERSHIP + [SafeReleaseChecked], SafeGoals(cfg, 0));
  }

  lemma NoSafesBefore(u: seq<Name>)
    ensures SafeReleaseChecked in BeforeSafes(u)
    ensures forall g :: g in BeforeSafes(u) ==> !g.SafeCreated? && !g.SafeHandedOver?
  {
    FrontHasNoSafes(u);
    EitherPart(FrontGoals(u), OWNERSHIP + [SafeReleaseChecked]);
    GateHasNoSafes();
  }

  lemma GateHasNoSafes()
    ensures var gate := OWNERSHIP + [SafeReleaseChecked];
            && SafeReleaseChecked in gate
            && forall g :: g in gate ==> !g.SafeCreated? && !g.SafeHandedOver?
  {
    var gate := OWNERSHIP + [SafeReleaseChecked];
    assert gate[2] == SafeReleaseChecked;
  }

  lemma EitherPart(a: seq<Goal>, b: seq<Goal>)
    ensures forall g :: g in a + b <==> g in a || g in b
  {
  }

  lemma SafesAfterCheck(cfg: NetworkConfig, u: seq<Name>, i: nat)
    requires i < |Goals(cfg, u)| && (Goals(cfg, u)[i].SafeCreated? || Goals(cfg, u)[i].SafeHandedOver?)
    ensures SafeReleaseChecked in Goals(cfg, u)[..i] && cfg.safes != []
  {
    var before, safes := BeforeSafes(u), SafeGoals(cfg, 0);
    SafesComeLast(cfg, u);
    NoSafesBefore(u);
    SafeGoalsShape(cfg, 0);
    MemberOfEither(before, safes, i);
    MemberOfPrefix(before, safes, i, SafeReleaseChecked);
  }

  lemma FrontHasNoSafes(u: seq<Name>)
    ensures forall g :: g in FrontGoals(u) ==> !g.SafeCreated? && !g.SafeHandedOver?
  {
    StackShape(u);
    forall g | g in FrontGoals(u) ensures !g.SafeCreated? && !g.SafeHandedOver? {
      var gate, stack := INSTALL + [FactoryOwned], StackGoals(u);
      assert g in gate || g in stack;
      if g in stack { assert Shaped(u, g); }
    }
  }

  lemma ReleaseMeans(ctx: Ctx, w: World)
    requires Met(ctx, SafeReleaseChecked, w) && ctx.cfg.safes != []
    ensures HoldsRelease(w)
  {
  }

  predicate ForSafe(tx: Tx) {
    tx.CreateSafe? || tx.ExecSafe?
  }

  lemma OnlySafeGoals(ctx: Ctx, g: Goal, w: World)
    requires MoveFor(ctx, g, w).Send? && ForSafe(Act(ctx, g, w))
    ensures g.SafeCreated? || g.SafeHandedOver?
  {
  }

  /** A Safe is created or executed on only where the chain has the four
      release contracts. */
  lemma SafesNeedRelease(cfg: NetworkConfig, opts: Options, w: World, i: nat, at: World)
    requires Valid(cfg) && RecordsHold(cfg, w) && Reaches(cfg, opts, w, i, at)
    requires MoveFor(CtxOf(cfg, opts.confirmFreshDeploy, w), Goals(cfg, opts.upgrades)[i], at).Send?
    requires ForSafe(Act(CtxOf(cfg, opts.confirmFreshDeploy, w), Goals(cfg, opts.upgrades)[i], at))
    ensures HoldsRelease(at)
  {
    var ctx := CtxOf(cfg, opts.confirmFreshDeploy, w);
    OnlySafeGoals(ctx, Goals(cfg, opts.upgrades)[i], at);
    SafesAfterCheck(cfg, opts.upgrades, i);
    PassedIsMet(cfg, opts, w, i, at, SafeReleaseChecked);
    ReleaseMeans(ctx, at);
  }

  // ----- Upgrades -----

  function UpgradeNames(goals: seq<Goal>): seq<Name> {
    if goals == [] then []
    else (if goals[0].Upgraded? then [goals[0].name] else []) + UpgradeNames(goals[1..])
  }

  function UpgradesSent(trace: seq<Tx>): seq<Name> {
    if trace == [] then []
    else (if trace[0].Upgrade? then [trace[0].name] else []) + UpgradesSent(trace[1..])
  }

  lemma {:induction false} UpgradesSentAppend(a: seq<Tx>, b: seq<Tx>)
    ensures UpgradesSent(a + b) == UpgradesSent(a) + UpgradesSent(b)
  {
    if a == [] {
      assert a + b == b;
    } else {
      assert (a + b)[1..] == a[1..] + b;
      UpgradesSentAppend(a[1..], b);
      AppendAssociates(if a[0].Upgrade? then [a[0].name] else [], UpgradesSent(a[1..]), UpgradesSent(b));
    }
  }

  lemma UpgradesSentByOne(tx: Tx)
    ensures UpgradesSent([tx]) == if tx.Upgrade? then [tx.name] else []
  {
    assert [tx][1..] == [];
  }

  lemma UpgradesSentByTwo(n: Name, tx: Tx)
    ensures UpgradesSent([DeployImplementation(n), tx]) == if tx.Upgrade? then [tx.name] else []
  {
    UpgradesSentByOne(tx);
    assert [DeployImplementation(n), tx][1..] == [tx];
  }

  lemma OnlyUpgradesUpgrade(ctx: Ctx, g: Goal, w: World)
    requires MoveFor(ctx, g, w).Send?
    ensures if g.Upgraded? then Act(ctx, g, w) == Upgrade(g.name) else !Act(ctx, g, w).Upgrade?
  {
  }

  lemma GoalReportsUpgrades(ctx: Ctx, g: Goal, w: World)
    requires Perform(ctx, g, w).ok
    ensures Perform(ctx, g, w).upgraded == if g.Upgraded? then [g.name] else []
    ensures !MoveFor(ctx, g, w).Send? ==> Perform(ctx, g, w).trace == [] && !g.Upgraded?
  {
  }

  lemma GoalUpgrades(ctx: Ctx, g: Goal, w: World)
    requires Perform(ctx, g, w).ok
    ensures UpgradesSent(Perform(ctx, g, w).trace) == if g.Upgraded? then [g.name] else []
  {
    GoalReportsUpgrades(ctx, g, w);
    if MoveFor(ctx, g, w).Send? {
      PerformSends(ctx, g, w);
      SendShape(ctx, g, w);
      OnlyUpgradesUpgrade(ctx, g, w);
      UpgradesSentByOne(Act(ctx, g, w));
      if g.Deployed? || g.Upgraded? { UpgradesSentByTwo(g.name, Act(ctx, g, w)); }
    }
  }

  lemma {:induction false} RunUpgrades(ctx: Ctx, goals: seq<Goal>, w: World)
    requires Run(ctx, goals, w).ok
    ensures Run(ctx, goals, w).upgraded == UpgradeNames(goals)
    ensures UpgradesSent(Run(ctx, goals, w).trace) == UpgradeNames(goals)
    decreases |goals|
  {
    if goals != [] {
      var first := Perform(ctx, goals[0], w);
      GoalUpgrades(ctx, goals[0], w);
      GoalReportsUpgrades(ctx, goals[0], w);
      RunUpgrades(ctx, goals[1..], first.world);
      UpgradesSentAppend(first.trace, Run(ctx, goals[1..], first.world).trace);
    }
  }

  lemma {:induction false} UpgradeNamesAppend(a: seq<Goal>, b: seq<Goal>)
    ensures UpgradeNames(a + b) == UpgradeNames(a) + UpgradeNames(b)
  {
    if a == [] {
      assert a + b == b;
    } else {
      assert (a + b)[1..] == a[1..] + b;
      UpgradeNamesAppend(a[1..], b);
      AppendAssociates(if a[0].Upgraded? then [a[0].name] else [], UpgradeNames(a[1..]), UpgradeNames(b));
    }
  }

  lemma {:induction false} NoUpgradeNames(goals: seq<Goal>)
    requires forall g :: g in goals ==> !g.Upgraded?
    ensures UpgradeNames(goals) == []
  {
    if goals != [] {
      assert goals[0] in goals;
      NoUpgradeNames(goals[1..]);
    }
  }

  /** How often a list of goals upgrades `n`. */
  function UpgradeCount(goals: seq<Goal>, n: Name): nat {
    multiset(UpgradeNames(goals))[n]
  }

  lemma RequestCons(u: seq<Name>, m: Name)
    requires u != []
    ensures multiset(u)[m] == (if u[0] == m then 1 else 0) + multiset(u[1..])[m]
  {
    assert u == [u[0]] + u[1..];
  }

  lemma UpgradesCons(u: seq<Name>, n: Name)
    requires u != []
    ensures UpgradeNames(UpgradesOf(u, n)) == (if u[0] == n then [n] else []) + UpgradeNames(UpgradesOf(u[1..], n))
  {
    UpgradeNamesAppend(if u[0] == n then [Upgraded(n)] else [], UpgradesOf(u[1..], n));
    if u[0] == n { assert [Upgraded(n)][1..] == []; }
  }

  lemma CountCons(n: Name, some: bool, rest: seq<Name>, m: Name)
    ensures multiset((if some then [n] else []) + rest)[m] == (if some && m == n then 1 else 0) + multiset(rest)[m]
  {
    if !some { assert [] + rest == rest; }
  }

  lemma {:induction false} OneComponentsUpgrades(u: seq<Name>, n: Name, m: Name)
    ensures UpgradeCount(UpgradesOf(u, n), m) == if m == n then multiset(u)[n] else 0
  {
    if u != [] {
      OneComponentsUpgrades(u[1..], n, m);
      UpgradesCons(u, n);
      CountCons(n, u[0] == n, UpgradeNames(UpgradesOf(u[1..], n)), m);
      RequestCons(u, n);
    }
  }

  lemma SectionUpgrades(u: seq<Name>, first: seq<Goal>, n: Name, last: seq<Goal>, m: Name)
    requires (forall g :: g in first ==> !g.Upgraded?) && (forall g :: g in last ==> !g.Upgraded?)
    ensures UpgradeCount(first + UpgradesOf(u, n) + last, m) == if m == n then multiset(u)[n] else 0
  {
    UpgradeNamesAppend(first, UpgradesOf(u, n));
    UpgradeNamesAppend(first + UpgradesOf(u, n), last);
    NoUpgradeNames(first);
    NoUpgradeNames(last);
    OneComponentsUpgrades(u, n, m);
    assert [] + UpgradeNames(UpgradesOf(u, n)) + [] == UpgradeNames(UpgradesOf(u, n));
  }

  lemma CountAppend(a: seq<Goal>, b: seq<Goal>, m: Name)
    ensures UpgradeCount(a + b, m) == UpgradeCount(a, m) + UpgradeCount(b, m)
  {
    UpgradeNamesAppend(a, b);
  }

  lemma CountFive(a: seq<Goal>, b: seq<Goal>, c: seq<Goal>, d: seq<Goal>, e: seq<Goal>, m: Name)
    ensures UpgradeCount(a + b + c + d + e, m)
            == UpgradeCount(a, m) + UpgradeCount(b, m) + UpgradeCount(c, m) + UpgradeCount(d, m) + UpgradeCount(e, m)
  {
    CountAppend(a, b, m);
    CountAppend(a + b, c, m);
    CountAppend(a + b + c, d, m);
    CountAppend(a + b + c + d, e, m);
  }

  lemma CoreCounts(u: seq<Name>, m: Name)
    ensures UpgradeCount(
              NotarySection(u) + ProofVerifierSection(u) + RegistrySection(u) + EscrowSection(u) + RootsSection(u), m)
            == if IsEntry(m) && !m.PlatformVerifier? then multiset(u)[m] else 0
  {
    CountFive(NotarySection(u), ProofVerifierSection(u), RegistrySection(u), EscrowSection(u), RootsSection(u), m);
    SectionUpgrades(u, [Deployed(NotaryService)], NotaryService, [NotaryTrusted, FeeCharged, RecipientSet], m);
    SectionUpgrades(u, [Deployed(CeremonyProofVerifier)], CeremonyProofVerifier, [], m);
    assert ProofVerifierSection(u) == ProofVerifierSection(u) + [];
    SectionUpgrades(u, [Deployed(IdentityRegistry)], IdentityRegistry, [RegistryWired], m);
    SectionUpgrades(u, [Deployed(HandleEscrow)], HandleEscrow, [EscrowBound], m);
    SectionUpgrades(u, [Deployed(GoogleJwtRoots)], GoogleJwtRoots, [RootsWired], m);
  }

  lemma PlatformCounts(u: seq<Name>, p: Platform, m: Name)
    ensures UpgradeCount(PlatformSection(u, p), m) == if m == PlatformVerifier(p) then multiset(u)[m] else 0
  {
    PlatformParts(u, p);
    SectionUpgrades(u, [CircuitDeployed(CircuitOf(p)), Deployed(PlatformVerifier(p))], PlatformVerifier(p),
      PlatformTail(p), m);
  }

  lemma StackCounts(u: seq<Name>, m: Name)
    ensures UpgradeCount(StackGoals(u), m)
            == UpgradeCount(
                 NotarySection(u) + ProofVerifierSection(u) + RegistrySection(u) + EscrowSection(u) + RootsSection(u), m)
               + UpgradeCount(PlatformSection(u, X), m) + UpgradeCount(PlatformSection(u, GitHub), m)
               + UpgradeCount(PlatformSection(u, Google), m)
  {
    var core :=
      NotarySection(u) + ProofVerifierSection(u) + RegistrySection(u) + EscrowSection(u) + RootsSection(u);
    CountFive(core, PlatformSection(u, X), PlatformSection(u, GitHub), PlatformSection(u, Google), ACCEPTING, m);
    NoUpgradeNames(ACCEPTING);
  }

  lemma GateCounts(stack: seq<Goal>, m: Name)
    ensures UpgradeCount(INSTALL + [FactoryOwned] + stack, m) == UpgradeCount(stack, m)
  {
    NoUpgradeNames(INSTALL + [FactoryOwned]);
    CountAppend(INSTALL + [FactoryOwned], stack, m);
  }

  lemma FrontCounts(u: seq<Name>, m: Name)
    ensures UpgradeCount(FrontGoals(u), m) == if IsEntry(m) then multiset(u)[m] else 0
  {
    CoreCounts(u, m);
    PlatformCounts(u, X, m);
    PlatformCounts(u, GitHub, m);
    PlatformCounts(u, Google, m);
    StackCounts(u, m);
    GateCounts(StackGoals(u), m);
  }

  /** Exactly the requested upgrades, however often each is listed. */
  lemma FrontUpgrades(u: seq<Name>)
    requires forall n :: n in u ==> IsEntry(n)
    ensures multiset(UpgradeNames(FrontGoals(u))) == multiset(u)
    ensures |UpgradeNames(FrontGoals(u))| == |u|
  {
    forall m ensures multiset(UpgradeNames(FrontGoals(u)))[m] == multiset(u)[m] {
      FrontCounts(u, m);
      assert !IsEntry(m) ==> m !in u;
      assert m in u <==> m in multiset(u);
    }
    assert multiset(UpgradeNames(FrontGoals(u))) == multiset(u);
    assert |multiset(UpgradeNames(FrontGoals(u)))| == |multiset(u)|;
  }

  /** A run that reaches the count of its upgrades has done each listed one
      exactly once, so the count never stops it. */
  lemma UpgradesRunOnce(ctx: Ctx, u: seq<Name>, w: World)
    requires (forall n :: n in u ==> IsEntry(n)) && Run(ctx, FrontGoals(u), w).ok
    ensures |Run(ctx, FrontGoals(u), w).upgraded| == |u|
    ensures multiset(UpgradesSent(Run(ctx, FrontGoals(u), w).trace)) == multiset(u)
  {
    RunUpgrades(ctx, FrontGoals(u), w);
    FrontUpgrades(u);
  }

  /** No goal before an upgrade reads through the proxy it upgrades, which is
      deployed by then. */
  lemma UpgradeBeforeRead(cfg: NetworkConfig, u: seq<Name>, i: nat)
    requires i < |Goals(cfg, u)| && Goals(cfg, u)[i].Upgraded?
    ensures var n := Goals(cfg, u)[i].name;
            && Deployed(n) in Goals(cfg, u)[..i]
            && forall j :: 0 <= j < i ==> n !in ReadsThrough(Goals(cfg, u)[j])
  {
    GoalsFlow(cfg, u);
    FlowsAt({}, {}, Goals(cfg, u), i);
  }

  function Reimplemented(w: World, n: Name, impl: Impl): World
    requires n in w.proxies
  {
    w.(proxies := w.proxies[n := w.proxies[n].(impl := impl)])
  }

  lemma NeedsWithout(ctx: Ctx, w: World, n: Name, impl: Impl)
    requires n in w.proxies
    ensures NeedsFactory(ctx, Reimplemented(w, n, impl)) == NeedsFactory(ctx, w)
  {
    assert Reimplemented(w, n, impl).proxies.Keys == w.proxies.Keys;
  }

  lemma StackDecidesWithout(ctx: Ctx, g: Goal, w: World, n: Name, impl: Impl)
    requires StackGoal(g) && n in w.proxies && n !in ReadsThrough(g)
    ensures MoveFor(ctx, g, Reimplemented(w, n, impl)) == MoveFor(ctx, g, w)
  {
  }

  /** What `ReadsThrough` leaves out a goal does not see: another
      implementation there changes none of its decisions. */
  lemma DecidesWithout(ctx: Ctx, g: Goal, w: World, n: Name, impl: Impl)
    requires n in w.proxies && n !in ReadsThrough(g)
    ensures MoveFor(ctx, g, Reimplemented(w, n, impl)) == MoveFor(ctx, g, w)
  {
    if StackGoal(g) { StackDecidesWithout(ctx, g, w, n, impl); } else { NeedsWithout(ctx, w, n, impl); }
  }
}
