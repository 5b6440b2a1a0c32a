/** A run built up goal by goal, for the loops and early returns of a program
    that makes it. */
module Tracking {
  import opened Prelude
  import opened Config
  import opened Worlds
  import opened Converge
  import opened Stability

  lemma ThenAssociates(a: Outcome, b: Outcome, c: Outcome)
    ensures Then(a, Then(b, c)) == Then(Then(a, b), c)
  {
    AppendAssociates(a.trace, b.trace, c.trace);
    AppendAssociates(a.deployed, b.deployed, c.deployed);
    AppendAssociates(a.upgraded, b.upgraded, c.upgraded);
  }

  lemma ThenIdle(a: Outcome, w: World)
    requires a.ok && a.world == w
    ensures Then(a, Idle(w)) == a
  {
  }

  lemma IdleThen(w: World, b: Outcome)
    ensures Then(Idle(w), b) == b
  {
  }

  /** A run of one list and then of another. */
  lemma {:induction false} RunAppend(ctx: Ctx, a: seq<Goal>, b: seq<Goal>, w: World)
    ensures var first := Run(ctx, a, w);
            Run(ctx, a + b, w) == if first.ok then Then(first, Run(ctx, b, first.world)) else first
    decreases |a|
  {
    if a == [] {
      assert a + b == b;
      IdleThen(w, Run(ctx, b, w));
    } else {
      assert (a + b)[1..] == a[1..] + b && (a + b)[0] == a[0];
      var first := Perform(ctx, a[0], w);
      if first.ok {
        RunAppend(ctx, a[1..], b, first.world);
        var rest := Run(ctx, a[1..], first.world);
        ThenAssociates(first, rest, Run(ctx, b, rest.world));
      }
    }
  }

  lemma RunOne(ctx: Ctx, g: Goal, w: World)
    ensures Run(ctx, [g], w) == Perform(ctx, g, w)
  {
    assert [g][1..] == [];
    if Perform(ctx, g, w).ok { ThenIdle(Perform(ctx, g, w), Perform(ctx, g, w).world); }
  }

  /** One more goal. */
  lemma RunSnoc(ctx: Ctx, goals: seq<Goal>, g: Goal, w: World)
    ensures var so := Run(ctx, goals, w);
            Run(ctx, goals + [g], w) == if so.ok then Then(so, Perform(ctx, g, so.world)) else so
  {
    RunAppend(ctx, goals, [g], w);
    if Run(ctx, goals, w).ok { RunOne(ctx, g, Run(ctx, goals, w).world); }
  }

  /** A goal met sends nothing. */
  lemma RunKeeps(ctx: Ctx, goals: seq<Goal>, g: Goal, w: World)
    requires Run(ctx, goals, w).ok && MoveFor(ctx, g, Run(ctx, goals, w).world).Keep?
    ensures Run(ctx, goals + [g], w) == Run(ctx, goals, w)
  {
    RunSnoc(ctx, goals, g, w);
    ThenIdle(Run(ctx, goals, w), Run(ctx, goals, w).world);
  }

  /** A goal that cannot be met ends the run. */
  lemma RunStops(ctx: Ctx, goals: seq<Goal>, g: Goal, w: World)
    requires Run(ctx, goals, w).ok && MoveFor(ctx, g, Run(ctx, goals, w).world).Stop?
    ensures var so, out := Run(ctx, goals, w), Run(ctx, goals + [g], w);
            !out.ok && out.world == so.world && out.trace == so.trace
  {
    RunSnoc(ctx, goals, g, w);
  }

  /** A name the factory already records is reported without sending. */
  lemma RunReuses(ctx: Ctx, goals: seq<Goal>, g: Goal, w: World)
    requires Run(ctx, goals, w).ok && MoveFor(ctx, g, Run(ctx, goals, w).world).Reuse?
    ensures var so, out := Run(ctx, goals, w), Run(ctx, goals + [g], w);
            out == so.(deployed := so.deployed + Reported(ctx, g))
  {
    RunSnoc(ctx, goals, g, w);
  }

  lemma PerformsOne(ctx: Ctx, g: Goal, w: World, tx: Tx)
    requires MoveFor(ctx, g, w) == Send([tx]) && !g.Upgraded?
    ensures var next := Apply(ctx.cfg, tx, w);
            Perform(ctx, g, w) ==
            if next.None? then Failed(w, [])
            else if Confirmed(ctx, g, next.value) then Outcome(true, next.value, [tx], Reported(ctx, g), [])
            else Failed(next.value, [tx])
  {
    SendOne(ctx.cfg, tx, w);
  }

  lemma PerformsTwo(ctx: Ctx, g: Goal, w: World, tx: Tx)
    requires g.Deployed? || g.Upgraded?
    requires MoveFor(ctx, g, w) == Send([DeployImplementation(g.name), tx])
    ensures var next := Apply(ctx.cfg, tx, w);
            Perform(ctx, g, w) ==
            if next.None? then Failed(w, [DeployImplementation(g.name)])
            else Outcome(true, next.value, [DeployImplementation(g.name), tx], Reported(ctx, g),
                         if g.Upgraded? then [g.name] else [])
  {
    SendTwo(ctx.cfg, g.name, tx, w);
  }

  /** A goal that sends one transaction and looks at what it did. */
  lemma RunSends(ctx: Ctx, goals: seq<Goal>, g: Goal, w: World, tx: Tx)
    requires Run(ctx, goals, w).ok && MoveFor(ctx, g, Run(ctx, goals, w).world) == Send([tx]) && !g.Upgraded?
    ensures var so, out := Run(ctx, goals, w), Run(ctx, goals + [g], w);
            var next := Apply(ctx.cfg, tx, so.world);
            if next.None? then !out.ok && out.world == so.world && out.trace == so.trace
            else
              && out.world == next.value && out.trace == so.trace + [tx]
              && out.ok == Confirmed(ctx, g, next.value)
              && (out.ok ==> out.deployed == so.deployed + Reported(ctx, g) && out.upgraded == so.upgraded)
  {
    RunSnoc(ctx, goals, g, w);
    PerformsOne(ctx, g, Run(ctx, goals, w).world, tx);
  }

  /** A goal that deploys an implementation and then uses it. */
  lemma RunSendsTwo(ctx: Ctx, goals: seq<Goal>, g: Goal, w: World, tx: Tx)
    requires Run(ctx, goals, w).ok && (g.Deployed? || g.Upgraded?)
    requires MoveFor(ctx, g, Run(ctx, goals, w).world) == Send([DeployImplementation(g.name), tx])
    ensures var so, out := Run(ctx, goals, w), Run(ctx, goals + [g], w);
            var next := Apply(ctx.cfg, tx, so.world);
            && out.ok == next.Some?
            && out.world == (if next.None? then so.world else next.value)
            && out.trace == so.trace + [DeployImplementation(g.name)] + (if next.None? then [] else [tx])
            && (out.ok ==> out.deployed == so.deployed + Reported(ctx, g))
            && (out.ok ==> out.upgraded == so.upgraded + if g.Upgraded? then [g.name] else [])
  {
    RunSnoc(ctx, goals, g, w);
    PerformsTwo(ctx, g, Run(ctx, goals, w).world, tx);
  }

  /** A run that stopped never gets to the goals after. */
  lemma StaysStopped(ctx: Ctx, goals: seq<Goal>, rest: seq<Goal>, w: World)
    requires !Run(ctx, goals, w).ok
    ensures Run(ctx, goals + rest, w) == Run(ctx, goals, w)
  {
    RunAppend(ctx, goals, rest, w);
  }

  lemma {:induction false} UpgradesOfAppend(a: seq<Name>, b: seq<Name>, n: Name)
    ensures UpgradesOf(a + b, n) == UpgradesOf(a, n) + UpgradesOf(b, n)
  {
    if a == [] {
      assert a + b == b;
    } else {
      assert (a + b)[1..] == a[1..] + b && (a + b)[0] == a[0];
      UpgradesOfAppend(a[1..], b, n);
      AppendAssociates(if a[0] == n then [Upgraded(n)] else [], UpgradesOf(a[1..], n), UpgradesOf(b, n));
    }
  }
}
