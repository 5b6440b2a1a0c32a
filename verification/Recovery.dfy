/** Crash recovery and idempotence of a run. */
module Recovery {
  import opened Config
  import opened Worlds
  import opened Converge
  import opened Stability
  import opened Interruption

  // ----- A finished run has met its goals -----

  lemma {:induction false} InterruptedAtTheEnd(ctx: Ctx, goals: seq<Goal>, w: World)
    requires Run(ctx, goals, w).ok
    ensures Interrupted(ctx, goals, w, |Run(ctx, goals, w).trace|) == Run(ctx, goals, w).world
    decreases |goals|
  {
    if goals != [] {
      var first := Perform(ctx, goals[0], w);
      InterruptedAtTheEnd(ctx, goals[1..], first.world);
      if MoveFor(ctx, goals[0], w).Send? {
        PerformSends(ctx, goals[0], w);
        RunAfterSend(ctx, goals, w);
        InterruptedAfterSend(ctx, goals, w, |Run(ctx, goals, w).trace|);
      }
    }
  }

  /** One goal done: it is met, and the conditions hold for the next ones. */
  lemma PerformedIsMet(ctx: Ctx, goals: seq<Goal>, w: World)
    requires Valid(ctx.cfg) && Located(ctx) && goals != []
    requires RecordsHold(ctx.cfg, w) && Ordered(goals) && HandOnIsLast(ctx, goals, w)
    requires Perform(ctx, goals[0], w).ok
    ensures var w' := Perform(ctx, goals[0], w).world;
            && (goals[0].Upgraded? || Met(ctx, goals[0], w'))
            && RecordsHold(ctx.cfg, w') && Ordered(goals[1..]) && HandOnIsLast(ctx, goals[1..], w')
  {
    var g := goals[0];
    var w' := Perform(ctx, g, w).world;
    assert g in goals;
    NeverReused(ctx, g, w);
    if MoveFor(ctx, g, w).Send? {
      PerformSends(ctx, g, w);
      ApplyKeepsRecords(ctx.cfg, Act(ctx, g, w), w);
      if !g.Upgraded? { ActMeets(ctx, g, w, w'); }
    }
    ConditionsGoOn(ctx, FactoryOwned, goals, w, w');
  }

  lemma {:induction false} FinishedIsMet(ctx: Ctx, goals: seq<Goal>, w: World, g: Goal)
    requires Valid(ctx.cfg) && Located(ctx)
    requires RecordsHold(ctx.cfg, w) && Ordered(goals) && HandOnIsLast(ctx, goals, w)
    requires Run(ctx, goals, w).ok && g in goals && !g.Upgraded?
    ensures Met(ctx, g, Run(ctx, goals, w).world)
    decreases |goals|
  {
    var w', rest := Perform(ctx, goals[0], w).world, goals[1..];
    PerformedIsMet(ctx, goals, w);
    if g == goals[0] {
      assert forall j :: 0 <= j < |rest| ==> rest[j] == goals[j + 1];
      assert forall h :: h in rest ==> h in goals;
      MetThrough(ctx, g, rest, w', |Run(ctx, rest, w').trace|);
      InterruptedAtTheEnd(ctx, rest, w');
    } else {
      FinishedIsMet(ctx, rest, w', g);
    }
  }

  // ----- Picking up where a run stopped -----

  /** Transactions an interrupted run has to send again: a lone implementation
      deploy, which no proxy points at yet. */
  function Resent(trace: seq<Tx>, k: nat): nat
    requires k <= |trace|
  {
    if k > 0 && trace[k - 1].DeployImplementation? then k - 1 else k
  }

  lemma ResentAcross(txs: seq<Tx>, later: seq<Tx>, k: nat)
    requires |txs| <= k <= |txs| + |later|
    requires txs != [] && !txs[|txs| - 1].DeployImplementation?
    ensures (txs + later)[Resent(txs + later, k)..] == later[Resent(later, k - |txs|)..]
  {
  }

  /** Where run `a` ends from a world, run `b` ends from another, sending the
      transactions from `from` on. */
  ghost predicate Continues(a: Outcome, b: Outcome, from: nat) {
    b.ok && b.world == a.world && from <= |a.trace| && b.trace == a.trace[from..]
  }

  lemma ResumeWithin(ctx: Ctx, goals: seq<Goal>, w: World, k: nat)
    requires goals != [] && Run(ctx, goals, w).ok && MoveFor(ctx, goals[0], w).Send?
    requires k < |MoveFor(ctx, goals[0], w).txs|
    ensures k <= |Run(ctx, goals, w).trace|
    ensures Interrupted(ctx, goals, w, k) == w && Resent(Run(ctx, goals, w).trace, k) == 0
  {
    PerformSends(ctx, goals[0], w);
    SendShape(ctx, goals[0], w);
    RunAfterSend(ctx, goals, w);
  }

  lemma ResumeBeyond(ctx: Ctx, goals: seq<Goal>, w: World, k: nat, at: World)
    requires goals != [] && Run(ctx, goals, w).ok && MoveFor(ctx, goals[0], w).Send?
    requires |MoveFor(ctx, goals[0], w).txs| <= k <= |Run(ctx, goals, w).trace|
    requires Met(ctx, goals[0], at)
    requires var rest := Run(ctx, goals[1..], Perform(ctx, goals[0], w).world);
             var j := k - |MoveFor(ctx, goals[0], w).txs|;
             j <= |rest.trace| && Continues(rest, Run(ctx, goals[1..], at), Resent(rest.trace, j))
    ensures Continues(Run(ctx, goals, w), Run(ctx, goals, at), Resent(Run(ctx, goals, w).trace, k))
  {
    var g := goals[0];
    PerformSends(ctx, g, w);
    SendShape(ctx, g, w);
    RunAfterSend(ctx, goals, w);
    ResentAcross(MoveFor(ctx, g, w).txs, Run(ctx, goals[1..], Perform(ctx, g, w).world).trace, k);
    assert [] + Run(ctx, goals[1..], at).trace == Run(ctx, goals[1..], at).trace;
  }

  /** A run cut after any number of its transactions, started again, finds
      everything before the cut met and goes on to the same end. */
  lemma {:induction false} Resume(ctx: Ctx, goals: seq<Goal>, w: World, k: nat)
    requires Valid(ctx.cfg) && Located(ctx)
    requires RecordsHold(ctx.cfg, w) && Ordered(goals) && HandOnIsLast(ctx, goals, w)
    requires forall g :: g in goals ==> !g.Upgraded?
    requires Run(ctx, goals, w).ok && k <= |Run(ctx, goals, w).trace|
    ensures Continues(
      Run(ctx, goals, w), Run(ctx, goals, Interrupted(ctx, goals, w, k)), Resent(Run(ctx, goals, w).trace, k))
    decreases |goals|
  {
    if goals != [] {
      var g, rest := goals[0], goals[1..];
      assert g in goals;
      assert forall j :: 0 <= j < |rest| ==> rest[j] == goals[j + 1];
      assert forall h :: h in rest ==> h in goals;
      var w' := Perform(ctx, g, w).world;
      PerformedIsMet(ctx, goals, w);
      NeverReused(ctx, g, w);
      if MoveFor(ctx, g, w).Keep? {
        Resume(ctx, rest, w, k);
        MetThrough(ctx, g, rest, w, k);
        KeptRun(ctx, goals, w);
        KeptRun(ctx, goals, Interrupted(ctx, goals, w, k));
      } else if k < |MoveFor(ctx, g, w).txs| {
        ResumeWithin(ctx, goals, w, k);
      } else {
        var j := k - |MoveFor(ctx, g, w).txs|;
        RunAfterSend(ctx, goals, w);
        InterruptedAfterSend(ctx, goals, w, k);
        Resume(ctx, rest, w', j);
        MetThrough(ctx, g, rest, w', j);
        ResumeBeyond(ctx, goals, w, k, Interrupted(ctx, rest, w', j));
      }
    }
  }

  lemma KeptRun(ctx: Ctx, goals: seq<Goal>, w: World)
    requires goals != [] && Met(ctx, goals[0], w)
    ensures Run(ctx, goals, w) == Run(ctx, goals[1..], w)
  {
    var rest := Run(ctx, goals[1..], w);
    assert [] + rest.trace == rest.trace && [] + rest.deployed == rest.deployed && [] + rest.upgraded == rest.upgraded;
  }
}
