/** What runs do to a Safe over its whole life, whatever files they apply. */
module SafeHistory {
  import opened Prelude
  import opened OwnerProgram
  import opened OwnerManager
  import opened Config
  import opened Worlds
  import opened Converge
  import opened Stability
  import opened Interruption
  import opened Convergence

  // ----- One goal -----

  /** A Safe the file declares at `a`. */
  ghost predicate DeclaredAt(cfg: NetworkConfig, a: Address, i: nat) {
    i < |cfg.safes| && SafeAt(cfg.safes[i]) == a
  }

  /** What a run may do to a Safe its file declares as number `i`: nothing,
      or in a state where the deployer signs alone one change onto the file's
      set. A Safe the file does not declare has no number, and no change. */
  predicate LawfulChange(cfg: NetworkConfig, i: nat, before: OwnerStore, after: OwnerStore) {
    after == before || (
      && OwnersOf(before).SignsAlone(cfg.deployer)
      && i < |cfg.safes| && OwnersOf(after).SameAs(cfg.safes[i].Declared()))
  }

  /** The number of the Safe at `a`: no other is declared there. */
  ghost predicate Numbered(cfg: NetworkConfig, a: Address, i: nat) {
    forall j: nat :: DeclaredAt(cfg, a, j) ==> j == i
  }

  /** Every address has a number: its own, or one past the last. */
  lemma NumberOf(cfg: NetworkConfig, a: Address) returns (i: nat)
    requires Valid(cfg)
    ensures Numbered(cfg, a, i)
    ensures i < |cfg.safes| ==> SafeAt(cfg.safes[i]) == a
  {
    if j: nat :| DeclaredAt(cfg, a, j) {
      i := j;
      forall k: nat | DeclaredAt(cfg, a, k) ensures k == i {
        if k != i { SafesApart(cfg, k, i); }
      }
    } else {
      i := |cfg.safes|;
    }
  }

  lemma OnlySafeGoalsTouchSafes(ctx: Ctx, g: Goal, w: World)
    requires MoveFor(ctx, g, w).Send? && !g.SafeCreated? && !g.SafeHandedOver?
    ensures !Act(ctx, g, w).CreateSafe? && !Act(ctx, g, w).ExecSafe?
  {
  }

  lemma OtherTxKeepsSafes(cfg: NetworkConfig, tx: Tx, w: World, w': World)
    requires !tx.CreateSafe? && !tx.ExecSafe? && Apply(cfg, tx, w) == Some(w')
    ensures w'.safes == w.safes
  {
  }

  lemma HandOverMove(ctx: Ctx, i: nat, w: World)
    requires i < |ctx.cfg.safes| && MoveFor(ctx, SafeHandedOver(i), w).Send?
    ensures var decl := ctx.cfg.safes[i];
            && SafeAt(decl) in w.safes
            && OwnersOf(w.safes[SafeAt(decl)]).SignsAlone(ctx.cfg.deployer)
            && !OwnersOf(w.safes[SafeAt(decl)]).SameAs(decl.Declared())
            && Act(ctx, SafeHandedOver(i), w)
               == HandOver(ctx.cfg, SafeAt(decl), OwnersOf(w.safes[SafeAt(decl)]), decl.Declared())
  {
  }

  /** A hand-over changes its own Safe, onto the declared set. */
  lemma HandOverChanges(ctx: Ctx, i: nat, w: World, tx: Tx, w': World) returns (end: OwnerStore)
    requires Valid(ctx.cfg) && SafesHealthy(w) && i < |ctx.cfg.safes|
    requires MoveFor(ctx, SafeHandedOver(i), w).Send? && tx == Act(ctx, SafeHandedOver(i), w)
    requires Apply(ctx.cfg, tx, w) == Some(w')
    ensures var decl := ctx.cfg.safes[i];
            && SafeAt(decl) in w.safes && w'.safes == w.safes[SafeAt(decl) := end]
            && OwnersOf(w.safes[SafeAt(decl)]).SignsAlone(ctx.cfg.deployer)
            && !OwnersOf(w.safes[SafeAt(decl)]).SameAs(decl.Declared())
            && OwnersOf(end).SameAs(decl.Declared())
  {
    HandOverMove(ctx, i, w);
    assert AdmittedSafe(ctx.cfg, ctx.cfg.safes[i]);
    end := HandOverApplies(ctx.cfg, w, ctx.cfg.safes[i]);
  }

  /** What is at `a` stays, and what is new there is a fresh Safe. */
  predicate CreatesAtMost(deployer: Address, w: World, w': World, a: Address) {
    && (a in w.safes ==> a in w'.safes && w'.safes[a] == w.safes[a])
    && (a !in w.safes && a in w'.safes ==> w'.safes[a] == Setup(deployer))
  }

  lemma CreateSafeChanges(cfg: NetworkConfig, safe: Address, w: World, w': World, a: Address)
    requires Apply(cfg, CreateSafe(safe), w) == Some(w')
    ensures CreatesAtMost(cfg.deployer, w, w', a)
  {
  }

  lemma CreationChanges(ctx: Ctx, g: Goal, w: World, tx: Tx, w': World, a: Address)
    requires MoveFor(ctx, g, w).Send? && !g.SafeHandedOver?
    requires tx == Act(ctx, g, w) && Apply(ctx.cfg, tx, w) == Some(w')
    ensures CreatesAtMost(ctx.cfg.deployer, w, w', a)
  {
    if g.SafeCreated? {
      SafeGoalsSendOne(ctx, g, w, tx);
      CreateSafeChanges(ctx.cfg, tx.safe, w, w', a);
    } else {
      OnlySafeGoalsTouchSafes(ctx, g, w);
      OtherTxKeepsSafes(ctx.cfg, tx, w, w');
    }
  }

  /** The Safe at `a`, number `i`, since it was `first`: there if it was, and
      lawfully changed. */
  ghost predicate Lawful(cfg: NetworkConfig, a: Address, i: nat, was: bool, first: OwnerStore, w: World) {
    && SafesHealthy(w)
    && (was ==> a in w.safes)
    && (if a in w.safes then LawfulChange(cfg, i, first, w.safes[a]) else first == Setup(cfg.deployer))
  }

  /** The transaction a goal sends keeps the change lawful: once on the file's
      set, the same file has nothing more for the Safe. */
  lemma ActIsLawful(ctx: Ctx, g: Goal, w: World, w': World, a: Address, i: nat, was: bool, first: OwnerStore)
    requires Valid(ctx.cfg) && Numbered(ctx.cfg, a, i) && Lawful(ctx.cfg, a, i, was, first, w)
    requires MoveFor(ctx, g, w).Send? && Apply(ctx.cfg, Act(ctx, g, w), w) == Some(w')
    ensures Lawful(ctx.cfg, a, i, was, first, w')
  {
    ApplyKeepsSafesHealthy(ctx.cfg, Act(ctx, g, w), w);
    if g.SafeHandedOver? {
      HandOverIndex(ctx, g, w);
      var end := HandOverChanges(ctx, g.index, w, Act(ctx, g, w), w');
      assert SafeAt(ctx.cfg.safes[g.index]) == a ==> DeclaredAt(ctx.cfg, a, g.index);
    } else {
      CreationChanges(ctx, g, w, Act(ctx, g, w), w', a);
    }
  }

  lemma HandOverIndex(ctx: Ctx, g: Goal, w: World)
    requires g.SafeHandedOver? && MoveFor(ctx, g, w).Send?
    ensures g.index < |ctx.cfg.safes|
  {
  }

  // ----- One run, cut anywhere -----

  lemma {:induction false} CutRunIsLawful(ctx: Ctx, goals: seq<Goal>, w: World, k: nat,
                                         a: Address, i: nat, was: bool, first: OwnerStore)
    requires Valid(ctx.cfg) && Numbered(ctx.cfg, a, i) && Lawful(ctx.cfg, a, i, was, first, w)
    ensures Lawful(ctx.cfg, a, i, was, first, Interrupted(ctx, goals, w, k))
    decreases |goals|
  {
    if goals != [] {
      var g, rest := goals[0], goals[1..];
      match MoveFor(ctx, g, w) {
        case Stop =>
        case Send(txs) =>
          var act := Apply(ctx.cfg, Act(ctx, g, w), w);
          if act.Some? {
            ActIsLawful(ctx, g, w, act.value, a, i, was, first);
            if k >= |txs| { CutRunIsLawful(ctx, rest, act.value, k - |txs|, a, i, was, first); }
          }
        case _ => CutRunIsLawful(ctx, rest, w, k, a, i, was, first);
      }
    }
  }

  // ----- Histories -----

  /** What happens to a chain: a run of some file, cut after some number of
      transactions; the owners of a Safe managing it; anything else. */
  datatype Event =
    | RunCut(cfg: NetworkConfig, opts: Options, cut: nat)
    | OwnersAct(safe: Address, calls: seq<OwnerCall>)
    | Elsewhere(to: World)

  function Happens(e: Event, w: World): World {
    match e
    case RunCut(cfg, opts, cut) =>
      Interrupted(CtxOf(cfg, opts.confirmFreshDeploy, w), Goals(cfg, opts.upgrades), w, cut)
    case OwnersAct(safe, calls) =>
      var end := if safe in w.safes then ManageAll(safe, w.safes[safe], calls) else None;
      if end.None? then w else w.(safes := w.safes[safe := end.value])
    case Elsewhere(to) => to.(safes := w.safes)
  }

  function History(events: seq<Event>, w: World): World
    decreases |events|
  {
    if events == [] then w else History(events[1..], Happens(events[0], w))
  }

  /** Every file applied is an admitted one of this deployer. */
  ghost predicate FilesOf(deployer: Address, events: seq<Event>) {
    forall e :: e in events && e.RunCut? ==> Valid(e.cfg) && e.cfg.deployer == deployer
  }

  lemma OwnersKeepHealthy(safe: Address, calls: seq<OwnerCall>, w: World)
    requires SafesHealthy(w)
    ensures SafesHealthy(Happens(OwnersAct(safe, calls), w))
  {
    if safe in w.safes && ManageAll(safe, w.safes[safe], calls).Some? {
      ManageAllKeepsHealthy(safe, w.safes[safe], calls);
    }
  }

  lemma RunKeepsHealthy(cfg: NetworkConfig, opts: Options, cut: nat, w: World)
    requires SafesHealthy(w)
    ensures SafesHealthy(Happens(RunCut(cfg, opts, cut), w))
  {
    InterruptedIsHealthy(CtxOf(cfg, opts.confirmFreshDeploy, w), Goals(cfg, opts.upgrades), w, cut);
  }

  lemma EventKeepsHealthy(e: Event, w: World)
    requires SafesHealthy(w)
    ensures SafesHealthy(Happens(e, w))
  {
    match e {
      case RunCut(cfg, opts, cut) => RunKeepsHealthy(cfg, opts, cut, w);
      case OwnersAct(safe, calls) => OwnersKeepHealthy(safe, calls, w);
      case Elsewhere(_) =>
    }
  }

  lemma {:induction false} HistoryKeepsHealthy(events: seq<Event>, w: World)
    requires SafesHealthy(w)
    ensures SafesHealthy(History(events, w))
    decreases |events|
  {
    if events != [] {
      EventKeepsHealthy(events[0], w);
      HistoryKeepsHealthy(events[1..], Happens(events[0], w));
    }
  }

  /** Whatever happened before, each run leaves each Safe alone or, where the
      deployer signs alone, on that run's file's set; one it creates starts
      as the deployer's. */
  lemma EveryRunIsLawful(before: seq<Event>, w: World, cfg: NetworkConfig, opts: Options, cut: nat, a: Address, i: nat)
    requires SafesHealthy(w) && Valid(cfg) && Numbered(cfg, a, i)
    ensures var at := History(before, w);
            var after := Happens(RunCut(cfg, opts, cut), at);
            && (a in at.safes ==> a in after.safes)
            && (a in after.safes ==>
                  LawfulChange(cfg, i, if a in at.safes then at.safes[a] else Setup(cfg.deployer), after.safes[a]))
  {
    var at := History(before, w);
    var ctx := CtxOf(cfg, opts.confirmFreshDeploy, at);
    HistoryKeepsHealthy(before, w);
    CutRunIsLawful(ctx, Goals(cfg, opts.upgrades), at, cut, a, i, a in at.safes,
      if a in at.safes then at.safes[a] else Setup(cfg.deployer));
  }

  /** An event that is not the Safe's owners acting leaves a Safe the deployer
      does not sign for alone as it is. */
  lemma EventLeavesAlone(deployer: Address, e: Event, w: World, a: Address)
    requires SafesHealthy(w) && FilesOf(deployer, [e])
    requires a in w.safes && !OwnersOf(w.safes[a]).SignsAlone(deployer)
    requires e.OwnersAct? ==> e.safe != a
    ensures a in Happens(e, w).safes && Happens(e, w).safes[a] == w.safes[a]
  {
    if e.RunCut? {
      assert e in [e];
      var i := NumberOf(e.cfg, a);
      EveryRunIsLawful([], w, e.cfg, e.opts, e.cut, a, i);
    }
  }

  /** Once the deployer no longer signs alone, no run of any file alters the
      Safe again: only its owners do. */
  lemma {:induction false} HeldForGood(deployer: Address, events: seq<Event>, w: World, a: Address)
    requires SafesHealthy(w) && FilesOf(deployer, events)
    requires a in w.safes && !OwnersOf(w.safes[a]).SignsAlone(deployer)
    requires forall e :: e in events && e.OwnersAct? ==> e.safe != a
    ensures a in History(events, w).safes && History(events, w).safes[a] == w.safes[a]
    decreases |events|
  {
    if events != [] {
      assert events[0] in events;
      assert forall x :: x in events[1..] ==> x in events;
      EventKeepsHealthy(events[0], w);
      EventLeavesAlone(deployer, events[0], w, a);
      HeldForGood(deployer, events[1..], Happens(events[0], w), a);
    }
  }

  // ----- One transaction per run -----

  /** How many transactions of a run execute on the Safe at `a`. */
  function ExecCount(trace: seq<Tx>, a: Address): nat {
    if trace == [] then 0
    else (if trace[0].ExecSafe? && trace[0].safe == a then 1 else 0) + ExecCount(trace[1..], a)
  }

  lemma {:induction false} ExecCountAppend(x: seq<Tx>, y: seq<Tx>, a: Address)
    ensures ExecCount(x + y, a) == ExecCount(x, a) + ExecCount(y, a)
  {
    if x == [] {
      assert x + y == y;
    } else {
      assert (x + y)[1..] == x[1..] + y;
      ExecCountAppend(x[1..], y, a);
    }
  }

  /** The Safe numbered `i` is on the file's set. */
  predicate OnFile(cfg: NetworkConfig, a: Address, i: nat, w: World) {
    a in w.safes && i < |cfg.safes| && OwnersOf(w.safes[a]).SameAs(cfg.safes[i].Declared())
  }

  function Left(cfg: NetworkConfig, a: Address, i: nat, w: World): nat {
    if OnFile(cfg, a, i, w) then 0 else 1
  }

  lemma HandOverTarget(ctx: Ctx, j: nat, w: World)
    requires j < |ctx.cfg.safes| && MoveFor(ctx, SafeHandedOver(j), w).Send?
    ensures var tx := Act(ctx, SafeHandedOver(j), w); tx.ExecSafe? && tx.safe == SafeAt(ctx.cfg.safes[j])
  {
  }

  lemma LeftAfter(cfg: NetworkConfig, a: Address, i: nat, j: nat, w: World, w': World, end: OwnerStore)
    requires Numbered(cfg, a, i) && j < |cfg.safes|
    requires var decl := cfg.safes[j];
             && SafeAt(decl) in w.safes && w'.safes == w.safes[SafeAt(decl) := end]
             && !OwnersOf(w.safes[SafeAt(decl)]).SameAs(decl.Declared()) && OwnersOf(end).SameAs(decl.Declared())
    ensures (if SafeAt(cfg.safes[j]) == a then 1 else 0) + Left(cfg, a, i, w') <= Left(cfg, a, i, w)
  {
    assert SafeAt(cfg.safes[j]) == a ==> DeclaredAt(cfg, a, j);
  }

  lemma HandOverExecs(ctx: Ctx, j: nat, w: World, tx: Tx, w': World, a: Address, i: nat)
    requires Valid(ctx.cfg) && SafesHealthy(w) && Numbered(ctx.cfg, a, i) && j < |ctx.cfg.safes|
    requires MoveFor(ctx, SafeHandedOver(j), w).Send? && tx == Act(ctx, SafeHandedOver(j), w)
    requires Apply(ctx.cfg, tx, w) == Some(w')
    ensures tx.ExecSafe?
    ensures (if tx.safe == a then 1 else 0) + Left(ctx.cfg, a, i, w') <= Left(ctx.cfg, a, i, w)
  {
    HandOverTarget(ctx, j, w);
    var end := HandOverChanges(ctx, j, w, tx, w');
    LeftAfter(ctx.cfg, a, i, j, w, w', end);
  }

  /** A transaction on the Safe leaves none to do; no other adds one. */
  lemma ActExecs(ctx: Ctx, g: Goal, w: World, w': World, a: Address, i: nat)
    requires Valid(ctx.cfg) && SafesHealthy(w) && Numbered(ctx.cfg, a, i)
    requires MoveFor(ctx, g, w).Send? && Apply(ctx.cfg, Act(ctx, g, w), w) == Some(w')
    ensures ExecCount([Act(ctx, g, w)], a) + Left(ctx.cfg, a, i, w') <= Left(ctx.cfg, a, i, w)
  {
    var tx := Act(ctx, g, w);
    assert [tx][1..] == [];
    if g.SafeHandedOver? {
      HandOverIndex(ctx, g, w);
      HandOverExecs(ctx, g.index, w, tx, w', a, i);
    } else {
      CreationChanges(ctx, g, w, Act(ctx, g, w), w', a);
      NoExec(ctx, g, w);
    }
  }

  lemma NoExec(ctx: Ctx, g: Goal, w: World)
    requires MoveFor(ctx, g, w).Send? && !g.SafeHandedOver?
    ensures !Act(ctx, g, w).ExecSafe?
  {
  }

  lemma GoalExecs(ctx: Ctx, g: Goal, w: World, a: Address)
    requires MoveFor(ctx, g, w).Send?
    ensures ExecCount(Perform(ctx, g, w).trace, a)
            == if Apply(ctx.cfg, Act(ctx, g, w), w).Some? then ExecCount([Act(ctx, g, w)], a) else 0
  {
    var act := Act(ctx, g, w);
    SendShape(ctx, g, w);
    SendOne(ctx.cfg, act, w);
    if g.Deployed? || g.Upgraded? {
      SendTwo(ctx.cfg, g.name, act, w);
      assert [DeployImplementation(g.name), act] == [DeployImplementation(g.name)] + [act];
      ExecCountAppend([DeployImplementation(g.name)], [act], a);
    }
    assert [DeployImplementation(NotaryService)][1..] == [];
  }

  /** A run executes on each Safe at most once, and not at all on one already
      on its file's set. */
  lemma {:induction false} RunExecsOnce(ctx: Ctx, goals: seq<Goal>, w: World, a: Address, i: nat)
    requires Valid(ctx.cfg) && SafesHealthy(w) && Numbered(ctx.cfg, a, i)
    ensures ExecCount(Run(ctx, goals, w).trace, a) <= Left(ctx.cfg, a, i, w)
    decreases |goals|
  {
    if goals != [] {
      var first, rest := Perform(ctx, goals[0], w), goals[1..];
      if MoveFor(ctx, goals[0], w).Send? {
        var act := Apply(ctx.cfg, Act(ctx, goals[0], w), w);
        GoalExecs(ctx, goals[0], w, a);
        PerformSends(ctx, goals[0], w);
        if act.Some? {
          ActExecs(ctx, goals[0], w, act.value, a, i);
          ApplyKeepsSafesHealthy(ctx.cfg, Act(ctx, goals[0], w), w);
        }
      }
      if first.ok {
        RunExecsOnce(ctx, rest, first.world, a, i);
        ExecCountAppend(first.trace, Run(ctx, rest, first.world).trace, a);
      }
    }
  }
}
