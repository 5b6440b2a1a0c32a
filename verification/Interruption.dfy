/** Runs cut short: where an interrupted run leaves the chain, and what it
    leaves met. */
module Interruption {
  import opened Prelude
  import opened Config
  import opened Worlds
  import opened Converge
  import opened Stability

  /** The world a run of `goals` has reached after its first `k` transactions. */
  function Interrupted(ctx: Ctx, goals: seq<Goal>, w: World, k: nat): World
    decreases |goals|
  {
    if goals == [] then w
    else
      match MoveFor(ctx, goals[0], w)
      case Stop => w
      case Send(txs) =>
        var act := Apply(ctx.cfg, Act(ctx, goals[0], w), w);
        if k < |txs| || act.None? then w
        else if !Confirmed(ctx, goals[0], act.value) then act.value
        else Interrupted(ctx, goals[1..], act.value, k - |txs|)
      case _ => Interrupted(ctx, goals[1..], w, k)
  }

  lemma PrefixOfAppend<T>(a: seq<T>, b: seq<T>, k: nat)
    requires k <= |a| + |b|
    ensures (a + b)[..k] == if k <= |a| then a[..k] else a + b[..k - |a|]
  {
  }

  /** The transactions of one goal, from the world it acts on. */
  lemma ActPrefix(ctx: Ctx, g: Goal, w: World, k: nat)
    requires MoveFor(ctx, g, w).Send? && k <= |MoveFor(ctx, g, w).txs|
    ensures var txs := MoveFor(ctx, g, w).txs;
            ApplyAll(ctx.cfg, txs[..k], w) == if k < |txs| then Some(w) else Apply(ctx.cfg, Act(ctx, g, w), w)
  {
    SendShape(ctx, g, w);
    var txs := MoveFor(ctx, g, w).txs;
    ApplyAllOne(ctx.cfg, Act(ctx, g, w), w);
    if k == |txs| {
      assert txs[..k] == txs;
      if |txs| == 2 { ApplyAllImplementation(ctx.cfg, g.name, Act(ctx, g, w), w); }
    } else if k == 1 {
      assert txs[..1] == [DeployImplementation(g.name)];
      ApplyAllOne(ctx.cfg, DeployImplementation(g.name), w);
    } else {
      assert txs[..0] == [];
    }
  }

  /** A failed goal landed nothing, its implementation, or everything but the
      confirmation. */
  lemma FailedTrace(ctx: Ctx, g: Goal, w: World)
    requires MoveFor(ctx, g, w).Send? && !Perform(ctx, g, w).ok
    ensures var txs := MoveFor(ctx, g, w).txs;
            Perform(ctx, g, w).trace ==
            if Apply(ctx.cfg, Act(ctx, g, w), w).Some? then txs else txs[..|txs| - 1]
  {
    SendShape(ctx, g, w);
    SendOne(ctx.cfg, Act(ctx, g, w), w);
    if g.Deployed? || g.Upgraded? {
      SendTwo(ctx.cfg, g.name, Act(ctx, g, w), w);
    }
  }

  /** `Interrupted` is the chain after the first `k` transactions sent. */
  lemma {:induction false} InterruptedIsPrefix(ctx: Ctx, goals: seq<Goal>, w: World, k: nat)
    requires k <= |Run(ctx, goals, w).trace|
    ensures ApplyAll(ctx.cfg, Run(ctx, goals, w).trace[..k], w) == Some(Interrupted(ctx, goals, w, k))
    decreases |goals|
  {
    if goals != [] {
      var g, rest := goals[0], goals[1..];
      var move := MoveFor(ctx, g, w);
      if move.Keep? || move.Reuse? {
        InterruptedIsPrefix(ctx, rest, w, k);
        assert Run(ctx, goals, w).trace == Run(ctx, rest, w).trace;
      } else if move.Send? {
        PrefixWhenSent(ctx, goals, w, k);
      }
    }
  }

  lemma PrefixAcross(cfg: NetworkConfig, txs: seq<Tx>, later: seq<Tx>, w: World, w1: World, k: nat)
    requires |txs| <= k <= |txs| + |later| && ApplyAll(cfg, txs, w) == Some(w1)
    ensures ApplyAll(cfg, (txs + later)[..k], w) == ApplyAll(cfg, later[..k - |txs|], w1)
  {
    PrefixOfAppend(txs, later, k);
    assert later[..0] == [] && txs + [] == txs && txs[..|txs|] == txs;
    ApplyAllAppend(cfg, txs, later[..k - |txs|], w);
  }

  lemma RunAfterSend(ctx: Ctx, goals: seq<Goal>, w: World)
    requires goals != [] && MoveFor(ctx, goals[0], w).Send? && Perform(ctx, goals[0], w).ok
    ensures var w1 := Perform(ctx, goals[0], w).world;
            Run(ctx, goals, w).trace == MoveFor(ctx, goals[0], w).txs + Run(ctx, goals[1..], w1).trace
  {
    PerformSends(ctx, goals[0], w);
  }

  lemma PrefixWhenFailed(ctx: Ctx, g: Goal, w: World, k: nat)
    requires MoveFor(ctx, g, w).Send? && !Perform(ctx, g, w).ok && k <= |Perform(ctx, g, w).trace|
    ensures ApplyAll(ctx.cfg, Perform(ctx, g, w).trace[..k], w)
            == if k < |MoveFor(ctx, g, w).txs| then Some(w) else Apply(ctx.cfg, Act(ctx, g, w), w)
    ensures k <= |MoveFor(ctx, g, w).txs|
    ensures k == |MoveFor(ctx, g, w).txs| ==> Apply(ctx.cfg, Act(ctx, g, w), w).Some?
  {
    FailedTrace(ctx, g, w);
    assert Perform(ctx, g, w).trace[..k] == MoveFor(ctx, g, w).txs[..k];
    ActPrefix(ctx, g, w, k);
  }

  lemma PrefixWithin(ctx: Ctx, goals: seq<Goal>, w: World, k: nat)
    requires goals != [] && MoveFor(ctx, goals[0], w).Send? && Perform(ctx, goals[0], w).ok
    requires k < |MoveFor(ctx, goals[0], w).txs|
    ensures ApplyAll(ctx.cfg, Run(ctx, goals, w).trace[..k], w) == Some(w)
  {
    RunAfterSend(ctx, goals, w);
    PrefixOfAppend(MoveFor(ctx, goals[0], w).txs, Run(ctx, goals[1..], Perform(ctx, goals[0], w).world).trace, k);
    ActPrefix(ctx, goals[0], w, k);
  }

  lemma PrefixBeyond(ctx: Ctx, goals: seq<Goal>, w: World, k: nat, end: World)
    requires goals != [] && MoveFor(ctx, goals[0], w).Send? && Perform(ctx, goals[0], w).ok
    requires |MoveFor(ctx, goals[0], w).txs| <= k <= |Run(ctx, goals, w).trace|
    requires var w1 := Perform(ctx, goals[0], w).world;
             var later := Run(ctx, goals[1..], w1).trace;
             var j := k - |MoveFor(ctx, goals[0], w).txs|;
             j <= |later| && ApplyAll(ctx.cfg, later[..j], w1) == Some(end)
    ensures ApplyAll(ctx.cfg, Run(ctx, goals, w).trace[..k], w) == Some(end)
  {
    var txs, w1 := MoveFor(ctx, goals[0], w).txs, Perform(ctx, goals[0], w).world;
    PerformSends(ctx, goals[0], w);
    RunAfterSend(ctx, goals, w);
    ActPrefix(ctx, goals[0], w, |txs|);
    assert txs[..|txs|] == txs;
    PrefixAcross(ctx.cfg, txs, Run(ctx, goals[1..], w1).trace, w, w1, k);
  }

  lemma InterruptedAfterAct(ctx: Ctx, goals: seq<Goal>, w: World, w': World, k: nat)
    requires goals != [] && MoveFor(ctx, goals[0], w).Send?
    requires Apply(ctx.cfg, Act(ctx, goals[0], w), w) == Some(w') && Confirmed(ctx, goals[0], w')
    ensures var size := |MoveFor(ctx, goals[0], w).txs|;
            Interrupted(ctx, goals, w, k) == if k < size then w else Interrupted(ctx, goals[1..], w', k - size)
  {
  }

  lemma InterruptedAfterSend(ctx: Ctx, goals: seq<Goal>, w: World, k: nat)
    requires goals != [] && MoveFor(ctx, goals[0], w).Send? && Perform(ctx, goals[0], w).ok
    ensures var size := |MoveFor(ctx, goals[0], w).txs|;
            Interrupted(ctx, goals, w, k)
            == if k < size then w else Interrupted(ctx, goals[1..], Perform(ctx, goals[0], w).world, k - size)
  {
    PerformSends(ctx, goals[0], w);
    InterruptedAfterAct(ctx, goals, w, Perform(ctx, goals[0], w).world, k);
  }

  lemma InterruptedAfterFailure(ctx: Ctx, goals: seq<Goal>, w: World, k: nat)
    requires goals != [] && MoveFor(ctx, goals[0], w).Send? && !Perform(ctx, goals[0], w).ok
    ensures var act := Apply(ctx.cfg, Act(ctx, goals[0], w), w);
            Interrupted(ctx, goals, w, k)
            == if k < |MoveFor(ctx, goals[0], w).txs| || act.None? then w else act.value
  {
    PerformSends(ctx, goals[0], w);
  }

  lemma {:induction false} PrefixWhenSent(ctx: Ctx, goals: seq<Goal>, w: World, k: nat)
    requires goals != [] && MoveFor(ctx, goals[0], w).Send?
    requires k <= |Run(ctx, goals, w).trace|
    ensures ApplyAll(ctx.cfg, Run(ctx, goals, w).trace[..k], w) == Some(Interrupted(ctx, goals, w, k))
    decreases |goals|, 0
  {
    var g := goals[0];
    var size := |MoveFor(ctx, g, w).txs|;
    if !Perform(ctx, g, w).ok {
      InterruptedAfterFailure(ctx, goals, w, k);
      PrefixWhenFailed(ctx, g, w, k);
    } else if k < size {
      InterruptedAfterSend(ctx, goals, w, k);
      PrefixWithin(ctx, goals, w, k);
    } else {
      InterruptedAfterSend(ctx, goals, w, k);
      var w1 := Perform(ctx, g, w).world;
      RunAfterSend(ctx, goals, w);
      InterruptedIsPrefix(ctx, goals[1..], w1, k - size);
      PrefixBeyond(ctx, goals, w, k, Interrupted(ctx, goals[1..], w1, k - size));
    }
  }

  lemma {:induction false} InterruptedIsHealthy(ctx: Ctx, goals: seq<Goal>, w: World, k: nat)
    requires SafesHealthy(w)
    ensures SafesHealthy(Interrupted(ctx, goals, w, k))
    decreases |goals|
  {
    if goals != [] {
      match MoveFor(ctx, goals[0], w) {
        case Stop =>
        case Send(txs) =>
          var act := Apply(ctx.cfg, Act(ctx, goals[0], w), w);
          if act.Some? {
            ApplyKeepsSafesHealthy(ctx.cfg, Act(ctx, goals[0], w), w);
            if k >= |txs| { InterruptedIsHealthy(ctx, goals[1..], act.value, k - |txs|); }
          }
        case _ => InterruptedIsHealthy(ctx, goals[1..], w, k);
      }
    }
  }

  // ----- Order -----

  predicate Ownership(g: Goal) {
    g.OwnershipOffered? || g.OwnershipAccepted?
  }

  /** Every goal names an entry where it names a contract, and the deployer
      takes the factory before it offers it on. */
  ghost predicate Ordered(goals: seq<Goal>) {
    && (forall g :: g in goals ==> WellFormed(g))
    && (forall i, j :: 0 <= i < j < |goals| && goals[j].FactoryOwned? ==> !Ownership(goals[i]))
  }

  /** Whatever may need the factory is met, or comes first, where the factory
      is handed on. */
  ghost predicate HandOnIsLast(ctx: Ctx, goals: seq<Goal>, w: World) {
    forall j, m :: 0 <= j < |goals| && goals[j].OwnershipAccepted? && NeededBy(m) ==>
      m in goals[..j] || Met(ctx, m, w)
  }

  lemma AllMetNeedsNothing(ctx: Ctx, w: World)
    requires forall m :: NeededBy(m) ==> Met(ctx, m, w)
    ensures !NeedsFactory(ctx, w)
  {
    forall n | n in ENTRIES ensures n in w.proxies {
      assert NeededBy(Deployed(n)) && Met(ctx, Deployed(n), w);
    }
    assert Met(ctx, CircuitDeployed(BearerLink), w) && Met(ctx, CircuitDeployed(OidcGoogle), w);
    assert NeededBy(CircuitDeployed(BearerLink)) && NeededBy(CircuitDeployed(OidcGoogle));
  }

  // ----- What is met stays met -----

  lemma ConditionsGoOn(ctx: Ctx, g: Goal, goals: seq<Goal>, w: World, w': World)
    requires goals != [] && Ordered(goals) && Valid(ctx.cfg) && Located(ctx)
    requires g.FactoryOwned? ==> HandOnIsLast(ctx, goals, w)
    requires w' == w || (
      && MoveFor(ctx, goals[0], w).Send?
      && Apply(ctx.cfg, Act(ctx, goals[0], w), w) == Some(w') && Confirmed(ctx, goals[0], w'))
    requires w' == w ==> Met(ctx, goals[0], w) || !NeededBy(goals[0])
    ensures Ordered(goals[1..])
    ensures g.FactoryOwned? ==> HandOnIsLast(ctx, goals[1..], w')
  {
    var h, rest := goals[0], goals[1..];
    assert forall x :: x in rest ==> x in goals;
    assert forall i, j :: 0 <= i < j < |rest| && rest[j].FactoryOwned? ==>
      goals[j + 1].FactoryOwned? && goals[i + 1] == rest[i];
    if g.FactoryOwned? {
      forall j, m | 0 <= j < |rest| && rest[j].OwnershipAccepted? && NeededBy(m)
        ensures m in rest[..j] || Met(ctx, m, w')
      {
        assert goals[j + 1].OwnershipAccepted?;
        assert goals[..j + 1] == [h] + rest[..j];
        if m !in rest[..j] && w' != w {
          assert h in goals;
          if m == h {
            ActMeets(ctx, h, w, w');
          } else {
            ActKeeps(ctx, m, h, w, Act(ctx, h, w), w');
          }
        }
      }
    }
  }

  lemma HandOnNeedsNothing(ctx: Ctx, goals: seq<Goal>, w: World)
    requires goals != [] && goals[0].OwnershipAccepted? && HandOnIsLast(ctx, goals, w)
    ensures !NeedsFactory(ctx, w)
  {
    forall m | NeededBy(m) ensures Met(ctx, m, w) {
      assert goals[..0] == [];
      assert goals[0].OwnershipAccepted?;
      assert m in goals[..0] || Met(ctx, m, w);
    }
    AllMetNeedsNothing(ctx, w);
  }

  /** What `MetThrough` needs of the goals still to come. */
  ghost predicate Ahead(ctx: Ctx, g: Goal, goals: seq<Goal>, w: World) {
    && RecordsHold(ctx.cfg, w) && Ordered(goals)
    && (Ownership(g) ==> forall h :: h in goals ==> !h.FactoryOwned?)
    && (g.FactoryOwned? ==> HandOnIsLast(ctx, goals, w))
  }

  lemma MetAfterAct(ctx: Ctx, g: Goal, goals: seq<Goal>, w: World, w': World)
    requires Valid(ctx.cfg) && WellFormed(g) && goals != []
    requires Ahead(ctx, g, goals, w) && Met(ctx, g, w)
    requires MoveFor(ctx, goals[0], w).Send? && Apply(ctx.cfg, Act(ctx, goals[0], w), w) == Some(w')
    ensures Met(ctx, g, w')
  {
    var h := goals[0];
    assert h in goals;
    if h.OwnershipAccepted? && g.FactoryOwned? { HandOnNeedsNothing(ctx, goals, w); }
    ActKeeps(ctx, g, h, w, Act(ctx, h, w), w');
  }

  lemma AheadAfterAct(ctx: Ctx, g: Goal, goals: seq<Goal>, w: World, w': World)
    requires Valid(ctx.cfg) && Located(ctx) && WellFormed(g) && goals != []
    requires Ahead(ctx, g, goals, w) && Met(ctx, g, w)
    requires MoveFor(ctx, goals[0], w).Send? && Apply(ctx.cfg, Act(ctx, goals[0], w), w) == Some(w')
    ensures Met(ctx, g, w')
    ensures Confirmed(ctx, goals[0], w') ==> Ahead(ctx, g, goals[1..], w')
  {
    MetAfterAct(ctx, g, goals, w, w');
    ApplyKeepsRecords(ctx.cfg, Act(ctx, goals[0], w), w);
    if Confirmed(ctx, goals[0], w') {
      ConditionsGoOn(ctx, g, goals, w, w');
      assert forall x :: x in goals[1..] ==> x in goals;
    }
  }

  lemma AheadAfterKeep(ctx: Ctx, g: Goal, goals: seq<Goal>, w: World)
    requires Valid(ctx.cfg) && Located(ctx) && goals != []
    requires Ahead(ctx, g, goals, w) && Met(ctx, goals[0], w)
    ensures Ahead(ctx, g, goals[1..], w)
  {
    ConditionsGoOn(ctx, g, goals, w, w);
    assert forall x :: x in goals[1..] ==> x in goals;
  }

  /** A goal met when a run reaches `goals` is met wherever the run is cut. */
  lemma {:induction false} MetThrough(ctx: Ctx, g: Goal, goals: seq<Goal>, w: World, k: nat)
    requires Valid(ctx.cfg) && Located(ctx) && WellFormed(g)
    requires Ahead(ctx, g, goals, w) && Met(ctx, g, w)
    ensures Met(ctx, g, Interrupted(ctx, goals, w, k))
    decreases |goals|
  {
    if goals != [] {
      assert goals[0] in goals;
      NeverReused(ctx, goals[0], w);
      match MoveFor(ctx, goals[0], w) {
        case Stop =>
        case Keep =>
          AheadAfterKeep(ctx, g, goals, w);
          MetThrough(ctx, g, goals[1..], w, k);
        case Send(txs) =>
          var act := Apply(ctx.cfg, Act(ctx, goals[0], w), w);
          if k >= |txs| && act.Some? {
            AheadAfterAct(ctx, g, goals, w, act.value);
            if Confirmed(ctx, goals[0], act.value) {
              MetThrough(ctx, g, goals[1..], act.value, k - |txs|);
            }
          }
        case Reuse =>
      }
    }
  }
}
