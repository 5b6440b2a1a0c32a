/** What a finished run reports as deployed: exactly what the chain lacked when
    it started, each component once. */
module Deployments {
  import opened Prelude
  import opened Config
  import opened Worlds
  import opened Converge
  import opened Stability
  import opened Convergence
  import opened GoalState

  /** Whether the chain already has what a component of the file stands for. */
  predicate Has(ctx: Ctx, w: World, c: Component) {
    match c
    case TheFactory => w.factory.Some?
    case Contract(n) => n in w.proxies
    case CircuitCode(circuit) => !CircuitMissing(ctx, w, circuit)
    case SafeNamed(table) =>
      exists i :: 0 <= i < |ctx.cfg.safes| && ctx.cfg.safes[i].name == table && SafeAt(ctx.cfg.safes[i]) in w.safes
  }

  /** Whether the file asks for the component. */
  predicate Declares(cfg: NetworkConfig, c: Component) {
    match c
    case Contract(n) => IsEntry(n)
    case SafeNamed(table) => exists i :: 0 <= i < |cfg.safes| && cfg.safes[i].name == table
    case _ => true
  }

  // ----- One goal -----

  lemma OnlyItsSafe(ctx: Ctx, w: World, w': World, i: nat, table: string)
    requires Valid(ctx.cfg) && i < |ctx.cfg.safes|
    requires w'.safes.Keys == w.safes.Keys + {SafeAt(ctx.cfg.safes[i])}
    ensures Has(ctx, w', SafeNamed(table)) <==> Has(ctx, w, SafeNamed(table)) || table == ctx.cfg.safes[i].name
  {
    forall j | 0 <= j < |ctx.cfg.safes| && j != i
      ensures SafeAt(ctx.cfg.safes[j]) in w'.safes <==> SafeAt(ctx.cfg.safes[j]) in w.safes
    {
      SafesApart(ctx.cfg, i, j);
    }
  }

  lemma CreatedSafe(ctx: Ctx, i: nat, w: World, w': World, c: Component)
    requires Valid(ctx.cfg) && i < |ctx.cfg.safes| && SafeAt(ctx.cfg.safes[i]) !in w.safes
    requires w'.safes.Keys == w.safes.Keys + {SafeAt(ctx.cfg.safes[i])}
    requires w'.factory == w.factory && w'.proxies == w.proxies && w'.code == w.code
    ensures Has(ctx, w', c) <==> Has(ctx, w, c) || c == SafeNamed(ctx.cfg.safes[i].name)
    ensures !Has(ctx, w, SafeNamed(ctx.cfg.safes[i].name))
  {
    if c.SafeNamed? { OnlyItsSafe(ctx, w, w', i, c.table); }
    forall j | 0 <= j < |ctx.cfg.safes| && j != i ensures ctx.cfg.safes[j].name != ctx.cfg.safes[i].name {
      SafesApart(ctx.cfg, i, j);
    }
  }

  lemma SameSafes(ctx: Ctx, w: World, w': World, c: Component)
    requires c.SafeNamed? && w'.safes.Keys == w.safes.Keys
    ensures Has(ctx, w', c) <==> Has(ctx, w, c)
  {
    assert forall a :: a in w'.safes <==> a in w.safes;
  }

  lemma OnlyCreationsCreate(ctx: Ctx, g: Goal, w: World)
    requires MoveFor(ctx, g, w).Send? && !g.SafeCreated?
    ensures !Act(ctx, g, w).CreateSafe?
  {
  }

  lemma TxKeepsSafes(cfg: NetworkConfig, tx: Tx, w: World, w': World)
    requires !tx.CreateSafe? && Apply(cfg, tx, w) == Some(w')
    ensures w'.safes.Keys == w.safes.Keys
  {
  }

  /** What a transaction puts on the chain, Safes apart. */
  function Brings(tx: Tx): Option<Component> {
    match tx
    case InstallFactory => Some(TheFactory)
    case DeployProxy(n, _) => Some(Contract(n))
    case DeployCircuit(c) => Some(CircuitCode(c))
    case _ => None
  }

  lemma ReportsWhatItBrings(ctx: Ctx, g: Goal, w: World)
    requires MoveFor(ctx, g, w).Send? && !g.SafeCreated? && WellFormed(g)
    ensures var tx := Act(ctx, g, w);
            && Reported(ctx, g) == (if Brings(tx).Some? then [Brings(tx).value] else [])
            && (tx.DeployCircuit? ==> CircuitMissing(ctx, w, tx.circuit))
            && (tx.DeployProxy? ==> IsEntry(tx.name))
            && (tx.InstallFactory? ==> g.FactoryInstalled?)
  {
  }

  lemma DeployedCircuitIsAdded(ctx: Ctx, k: Circuit, w: World, w': World, c: Component)
    requires Located(ctx) && Valid(ctx.cfg) && !c.SafeNamed? && CircuitMissing(ctx, w, k)
    requires Apply(ctx.cfg, DeployCircuit(k), w) == Some(w')
    ensures Has(ctx, w', c) <==> Has(ctx, w, c) || c == CircuitCode(k)
  {
  }

  lemma TxAdds(ctx: Ctx, tx: Tx, w: World, w': World, c: Component)
    requires !c.SafeNamed? && !tx.DeployCircuit? && Apply(ctx.cfg, tx, w) == Some(w')
    requires tx.InstallFactory? ==> w'.factory.Some?
    ensures Has(ctx, w', c) <==> Has(ctx, w, c) || Brings(tx) == Some(c)
    ensures Brings(tx) == Some(c) ==> !Has(ctx, w, c)
  {
  }

  lemma ActAdds(ctx: Ctx, g: Goal, w: World, w': World, c: Component)
    requires Located(ctx) && WellFormed(g) && Valid(ctx.cfg) && !g.SafeCreated? && !c.SafeNamed?
    requires MoveFor(ctx, g, w).Send?
    requires Apply(ctx.cfg, Act(ctx, g, w), w) == Some(w') && Confirmed(ctx, g, w')
    ensures Has(ctx, w', c) <==> Has(ctx, w, c) || c in Reported(ctx, g)
    ensures c in Reported(ctx, g) ==> !Has(ctx, w, c)
  {
    var tx := Act(ctx, g, w);
    ReportsWhatItBrings(ctx, g, w);
    if tx.DeployCircuit? {
      DeployedCircuitIsAdded(ctx, tx.circuit, w, w', c);
    } else {
      TxAdds(ctx, tx, w, w', c);
    }
  }

  /** A goal reports what it added, and added what it reports. */
  lemma PerformAdds(ctx: Ctx, g: Goal, w: World, c: Component)
    requires Valid(ctx.cfg) && Located(ctx) && WellFormed(g) && RecordsHold(ctx.cfg, w)
    requires Perform(ctx, g, w).ok
    ensures var p := Perform(ctx, g, w);
            && (Has(ctx, p.world, c) <==> Has(ctx, w, c) || c in p.deployed)
            && (c in p.deployed ==> !Has(ctx, w, c))
            && |p.deployed| <= 1
  {
    NeverReused(ctx, g, w);
    if MoveFor(ctx, g, w).Send? {
      PerformSends(ctx, g, w);
      SentAdds(ctx, g, w, Perform(ctx, g, w).world, c);
    }
  }

  lemma CreationAdds(ctx: Ctx, i: nat, w: World, w': World, c: Component)
    requires Valid(ctx.cfg) && MoveFor(ctx, SafeCreated(i), w).Send?
    requires Apply(ctx.cfg, Act(ctx, SafeCreated(i), w), w) == Some(w')
    ensures Has(ctx, w', c) <==> Has(ctx, w, c) || c in Reported(ctx, SafeCreated(i))
    ensures c in Reported(ctx, SafeCreated(i)) ==> !Has(ctx, w, c)
  {
    CreatedSafe(ctx, i, w, w', c);
  }

  lemma SentAdds(ctx: Ctx, g: Goal, w: World, w': World, c: Component)
    requires Valid(ctx.cfg) && Located(ctx) && WellFormed(g) && MoveFor(ctx, g, w).Send?
    requires Apply(ctx.cfg, Act(ctx, g, w), w) == Some(w') && Confirmed(ctx, g, w')
    ensures Has(ctx, w', c) <==> Has(ctx, w, c) || c in Reported(ctx, g)
    ensures c in Reported(ctx, g) ==> !Has(ctx, w, c)
  {
    if g.SafeCreated? {
      CreationAdds(ctx, g.index, w, w', c);
    } else if c.SafeNamed? {
      OnlyCreationsCreate(ctx, g, w);
      TxKeepsSafes(ctx.cfg, Act(ctx, g, w), w, w');
      SameSafes(ctx, w, w', c);
    } else {
      ActAdds(ctx, g, w, w', c);
    }
  }

  // ----- A whole run -----

  lemma {:induction false} RunAdds(ctx: Ctx, goals: seq<Goal>, w: World, c: Component)
    requires Valid(ctx.cfg) && Located(ctx) && RecordsHold(ctx.cfg, w)
    requires forall g :: g in goals ==> WellFormed(g)
    requires Run(ctx, goals, w).ok
    ensures var run := Run(ctx, goals, w);
            && (Has(ctx, run.world, c) <==> Has(ctx, w, c) || c in run.deployed)
            && (c in run.deployed ==> !Has(ctx, w, c))
    decreases |goals|
  {
    if goals != [] {
      var first, rest := Perform(ctx, goals[0], w), goals[1..];
      assert goals[0] in goals;
      assert forall g :: g in rest ==> g in goals;
      PerformAdds(ctx, goals[0], w, c);
      PerformKeepsRecords(ctx, goals[0], w);
      RunAdds(ctx, rest, first.world, c);
    }
  }

  lemma PerformKeepsRecords(ctx: Ctx, g: Goal, w: World)
    requires RecordsHold(ctx.cfg, w) && Perform(ctx, g, w).ok
    ensures RecordsHold(ctx.cfg, Perform(ctx, g, w).world)
  {
    if MoveFor(ctx, g, w).Send? {
      PerformSends(ctx, g, w);
      ApplyKeepsRecords(ctx.cfg, Act(ctx, g, w), w);
    }
  }

  lemma {:induction false} ReportsOnce(ctx: Ctx, goals: seq<Goal>, w: World)
    requires Valid(ctx.cfg) && Located(ctx) && RecordsHold(ctx.cfg, w)
    requires forall g :: g in goals ==> WellFormed(g)
    requires Run(ctx, goals, w).ok
    ensures Distinct(Run(ctx, goals, w).deployed)
    decreases |goals|
  {
    if goals != [] {
      var first, rest := Perform(ctx, goals[0], w), goals[1..];
      assert goals[0] in goals;
      assert forall g :: g in rest ==> g in goals;
      PerformKeepsRecords(ctx, goals[0], w);
      ReportsOnce(ctx, rest, first.world);
      var later := Run(ctx, rest, first.world).deployed;
      PerformAdds(ctx, goals[0], w, TheFactory);
      forall c | c in Elements(first.deployed) ensures c !in Elements(later) {
        PerformAdds(ctx, goals[0], w, c);
        RunAdds(ctx, rest, first.world, c);
      }
      DistinctAppend(first.deployed, later);
    }
  }

  // ----- What a settled chain has -----

  lemma SettledHasSafe(ctx: Ctx, w: World, table: string)
    requires Settled(ctx, w) && Declares(ctx.cfg, SafeNamed(table))
    ensures Has(ctx, w, SafeNamed(table))
  {
    var i :| 0 <= i < |ctx.cfg.safes| && ctx.cfg.safes[i].name == table;
    EverySafeHasGoals(ctx.cfg, 0, i);
    BackMeets(ctx, w, SafeCreated(i));
  }

  lemma MetHas(ctx: Ctx, w: World, g: Goal, c: Component)
    requires Met(ctx, g, w) && c in Reported(ctx, g) && !c.SafeNamed?
    ensures Has(ctx, w, c)
  {
  }

  lemma SettledHas(ctx: Ctx, w: World, c: Component)
    requires Settled(ctx, w) && Declares(ctx.cfg, c)
    ensures Has(ctx, w, c)
  {
    match c {
      case TheFactory =>
        FactoryGoalsAreGoals(ctx.cfg, []);
        MetHas(ctx, w, FactoryInstalled, c);
      case Contract(n) =>
        NeededIsInFront(Deployed(n), []);
        MetHas(ctx, w, Deployed(n), c);
      case CircuitCode(circuit) =>
        NeededIsInFront(CircuitDeployed(circuit), []);
        MetHas(ctx, w, CircuitDeployed(circuit), c);
      case SafeNamed(table) => SettledHasSafe(ctx, w, table);
    }
  }

  lemma {:induction false} ReportsDeclared(ctx: Ctx, goals: seq<Goal>, w: World, c: Component)
    requires (forall g :: g in goals ==> WellFormed(g)) && Run(ctx, goals, w).ok
    requires c in Run(ctx, goals, w).deployed
    ensures Declares(ctx.cfg, c)
    decreases |goals|
  {
    var first := Perform(ctx, goals[0], w);
    assert goals[0] in goals;
    if c in first.deployed {
      assert c in Reported(ctx, goals[0]);
    } else {
      assert forall g :: g in goals[1..] ==> g in goals;
      ReportsDeclared(ctx, goals[1..], first.world, c);
    }
  }

  /** A finished run reports a component exactly when the file asks for it and
      the chain lacked it at the start; none is reported twice. */
  lemma DeployedIsWhatWasMissing(cfg: NetworkConfig, opts: Options, w: World, c: Component)
    requires Valid(cfg) && RecordsHold(cfg, w) && RunAll(cfg, cfg.deployer, opts, w).ok
    ensures var run := RunAll(cfg, cfg.deployer, opts, w);
            var ctx := CtxOf(cfg, opts.confirmFreshDeploy, w);
            && (c in run.deployed <==> Declares(cfg, c) && !Has(ctx, w, c))
            && Distinct(run.deployed)
  {
    var ctx := CtxOf(cfg, opts.confirmFreshDeploy, w);
    var goals := Goals(cfg, opts.upgrades);
    GoalsAreOrdered(ctx, opts.upgrades, w);
    RunAdds(ctx, goals, w, c);
    ReportsOnce(ctx, goals, w);
    FinishedSettles(cfg, opts, w);
    if c in Run(ctx, goals, w).deployed { ReportsDeclared(ctx, goals, w, c); }
    if Declares(cfg, c) { SettledHas(ctx, Run(ctx, goals, w).world, c); }
  }
}
