/** The worst a day can get: once the daily-loss breaker is engaged, at most the capital still at
    work can be lost that day. */
module WorstDay {
  import opened Domain
  import opened Risk
  import opened Machine
  import opened Ledger
  import opened Moves
  import Conservation
  import LatchOrder
  import Solvency
  import Strategy
  import Trail

  /** A buy fill never has a negative cost. */
  ghost predicate Charges(exec: Executor) {
    forall o: Order :: ChargesAt(exec, o)
  }

  predicate ChargesAt(exec: Executor, o: Order) {
    o.BuyOrder? && exec(o).Filled? ==> exec(o).fill.notionalUsd + exec(o).fill.feeUsd >= 0.0
  }

  // ---- Costs are never negative ----

  ghost predicate CostsCounted(s: State) {
    forall m :: m in s.positions ==> s.positions[m].costUsd >= 0.0
  }

  lemma MoveKeepsCosts(cfg: Config, exec: Executor, s: State, mv: Move)
    requires Charges(exec) && CostsCounted(s) && Enabled(cfg, s, mv)
    ensures CostsCounted(Apply(cfg, exec, s, mv))
  {
    hide Vwap, ClosePosition, Settle, LossLimit, Ruled, Expired;
    match mv
    case Settling(_) =>
    case Slicing(l, slice) => assert ChargesAt(exec, SliceOrder(cfg, s, l, slice));
    case Ticking(pu) => TickTouches(cfg, s.positions[pu.mint], pu);
    case Selling(x, now, cause) => ExitOutcome(cfg, exec, s, x, now, cause);
  }

  lemma CostsAreInductive(cfg: Config, exec: Executor)
    requires Charges(exec)
    ensures Inductive(cfg, exec, (s, _) => CostsCounted(s), false)
  {
    forall s: State, mv: Move | CostsCounted(s) && Coherent(s) && Enabled(cfg, s, mv)
      ensures CostsCounted(Apply(cfg, exec, s, mv))
    {
      MoveKeepsCosts(cfg, exec, s, mv);
    }
  }

  lemma RunCountsCosts(cfg: Config, exec: Executor, boot: Time, steps: seq<Step>)
    requires cfg.Valid() && Charges(exec) && LegalRun(cfg, exec, Initial(cfg, boot), steps)
    ensures CostsCounted(Run(cfg, exec, Initial(cfg, boot), steps))
  {
    CostsAreInductive(cfg, exec);
    var inv := (s: State, _: Time) => CostsCounted(s);
    assert inv(Initial(cfg, boot), boot);
    RunKeeps(cfg, exec, inv, false, Initial(cfg, boot), boot, steps);
    assert inv(Run(cfg, exec, Initial(cfg, boot), steps), LastTs(boot, steps));
  }

  lemma {:induction false} CostIsNonNegative(positions: map<Mint, Position>)
    requires forall m :: m in positions ==> positions[m].costUsd >= 0.0
    ensures SumCost(positions) >= 0.0
    decreases |positions|
  {
    if positions != map[] {
      var m :| m in positions;
      SumCostSplit(positions, m);
      CostIsNonNegative(positions - {m});
    }
  }

  // ---- What a latched day can still lose ----

  /** The latch of this very day is set. */
  predicate LatchedOn(r: RiskState, day: int) { r.dailyLossTripped && r.day == day }

  /** The day's P&L if everything at work were lost. */
  function Floor(s: State): real { s.controls.state.dayRealizedPnl - s.deployed }

  lemma CloseKeepsFloor(cfg: Config, exec: Executor, s: State, x: Exit, now: Time, cause: Cause)
    requires Solvency.PaysOut(exec) && LatchedOn(s.controls.state, DayOf(now))
    ensures var s' := ClosePosition(cfg, exec, s, x, now, cause);
      Floor(s') >= Floor(s) && LatchedOn(s'.controls.state, DayOf(now))
  {
    hide PnlPct, LossLimit, CountFailure, Proceeds;
    assert Solvency.PaysOutAt(exec, ExitOrder(s.orderSeq + 1, x, now));
  }

  lemma {:induction false} CloseAllKeepsFloor(cfg: Config, exec: Executor, s: State, exits: seq<Exit>, now: Time)
    requires Solvency.PaysOut(exec) && LatchedOn(s.controls.state, DayOf(now))
    ensures var s' := CloseAll(cfg, exec, s, exits, now);
      Floor(s') >= Floor(s) && LatchedOn(s'.controls.state, DayOf(now))
    decreases |exits|
  {
    hide ClosePosition;
    if exits != [] {
      CloseKeepsFloor(cfg, exec, s, exits[0], now, Sweep);
      CloseAllKeepsFloor(cfg, exec, ClosePosition(cfg, exec, s, exits[0], now, Sweep), exits[1..], now);
    }
  }

  lemma EventKeepsFloor(cfg: Config, exec: Executor, s: State, step: Step)
    requires cfg.Valid() && Solvency.PaysOut(exec) && LatchedOn(s.controls.state, DayOf(step.ev.Ts()))
    ensures var s' := OnEvent(cfg, exec, s, step);
      Floor(s') >= Floor(s) && LatchedOn(s'.controls.state, DayOf(step.ev.Ts()))
  {
    hide CloseAll, SendSlices, Strategy.PositionBudget, LossLimit, Prune, Ruled, ClosePosition, Collect, DayOf;
    var handled := Handle(cfg, exec, s, step.ev);
    if step.ev.PriceEvent? && step.ev.price.mint in s.positions {
      var pu := step.ev.price;
      var (p, exit) := Ruled(cfg, s.positions[pu.mint], pu);
      if exit.Some? {
        CloseKeepsFloor(cfg, exec, ObserveTick(cfg, s, pu),
                        ExitAt(p, pu.priceUsd, pu.liquidityUsd, exit.value), pu.ts, OnTick);
      }
    }
    assert Floor(handled) >= Floor(s) && LatchedOn(handled.controls.state, DayOf(step.ev.Ts()));
    CloseAllKeepsFloor(cfg, exec, handled, Collect(cfg, handled.positions, step.order, step.ev.Ts()), step.ev.Ts());
  }

  lemma {:induction false} DayKeepsFloor(cfg: Config, exec: Executor, s: State, steps: seq<Step>, day: int)
    requires cfg.Valid() && Solvency.PaysOut(exec) && LatchedOn(s.controls.state, day)
    requires forall i :: 0 <= i < |steps| ==> DayOf(steps[i].ev.Ts()) == day
    ensures var s' := Run(cfg, exec, s, steps);
      Floor(s') >= Floor(s) && LatchedOn(s'.controls.state, day)
  {
    hide OnEvent, DayOf;
    if steps != [] {
      var front := steps[..|steps| - 1];
      DayKeepsFloor(cfg, exec, s, front, day);
      EventKeepsFloor(cfg, exec, Run(cfg, exec, s, front), steps[|steps| - 1]);
    }
  }

  lemma {:induction false} RunAppends(cfg: Config, exec: Executor, s: State, a: seq<Step>, b: seq<Step>)
    requires cfg.Valid()
    ensures Run(cfg, exec, s, a + b) == Run(cfg, exec, Run(cfg, exec, s, a), b)
    decreases |b|
  {
    hide OnEvent;
    if b == [] {
      assert a + b == a;
    } else {
      RunAppends(cfg, exec, s, a, b[..|b| - 1]);
      assert (a + b)[..|a + b| - 1] == a + b[..|b| - 1];
    }
  }

  /** Worst day. In any legal run, once the daily-loss latch is set, the day's P&L can fall by at
      most the capital deployed at that moment, for the rest of that day: nothing more is bought,
      and no sell can lose more than its position cost. */
  lemma LatchedDayLosesAtMostDeployed(cfg: Config, exec: Executor, boot: Time, steps: seq<Step>, k: nat)
    requires cfg.Valid() && Solvency.PaysOut(exec) && Charges(exec)
    requires LegalRun(cfg, exec, Initial(cfg, boot), steps) && k <= |steps|
    ensures var s := Run(cfg, exec, Initial(cfg, boot), steps[..k]);
      var s' := Run(cfg, exec, Initial(cfg, boot), steps);
      var r := s.controls.state;
      r.dailyLossTripped && (forall i :: k <= i < |steps| ==> DayOf(steps[i].ev.Ts()) == r.day) ==>
        s'.controls.state.dayRealizedPnl >= r.dayRealizedPnl - s.deployed
  {
    hide Run, LegalRun, DayOf;
    var s0 := Initial(cfg, boot);
    var s, s' := Run(cfg, exec, s0, steps[..k]), Run(cfg, exec, s0, steps);
    assert steps == steps[..k] + steps[k..];
    RunAppends(cfg, exec, s0, steps[..k], steps[k..]);
    Conservation.LedgerConservation(cfg, exec, boot, steps);
    RunCountsCosts(cfg, exec, boot, steps);
    CostIsNonNegative(s'.positions);
    var r := s.controls.state;
    if r.dailyLossTripped && forall i :: k <= i < |steps| ==> DayOf(steps[i].ev.Ts()) == r.day {
      DayKeepsFloor(cfg, exec, s, steps[k..], r.day);
    }
  }

  // ---- Against the configured limit ----

  /** Latched, the day can still lose no more than `capital` beyond the limit; unlatched, it is above
      the limit. */
  predicate Worst(cfg: Config, r: RiskState, deployed: real, capital: real) {
    if r.dailyLossTripped then r.dayRealizedPnl - deployed >= LossLimit(cfg) - capital
    else r.dayRealizedPnl > LossLimit(cfg)
  }

  predicate WorstAt(cfg: Config, s: State, now: Time, capital: real) {
    Worst(cfg, Rollover(s.controls.state, now), s.deployed, capital)
  }

  /** Either the control day has become the day of `now`, or the day's account is untouched. */
  predicate DayMoved(s: State, s': State, now: Time) {
    var r, r' := s.controls.state, s'.controls.state;
    || r'.day == DayOf(now)
    || (s'.deployed == s.deployed && r'.day == r.day
        && r'.dayRealizedPnl == r.dayRealizedPnl && r'.dailyLossTripped == r.dailyLossTripped)
  }

  ghost predicate Costed(exits: seq<Exit>) { forall i :: 0 <= i < |exits| ==> exits[i].cost >= 0.0 }

  lemma CloseKeepsWorst(cfg: Config, exec: Executor, s: State, x: Exit, now: Time, cause: Cause, capital: real)
    requires Solvency.PaysOut(exec) && WorstAt(cfg, s, now, capital) && s.deployed <= capital && x.cost >= 0.0
    ensures var s' := ClosePosition(cfg, exec, s, x, now, cause);
      WorstAt(cfg, s', now, capital) && s'.deployed <= capital && DayMoved(s, s', now)
  {
    hide PnlPct, LossLimit, CountFailure, Proceeds, DayOf;
    assert Solvency.PaysOutAt(exec, ExitOrder(s.orderSeq + 1, x, now));
  }

  lemma {:induction false} CloseAllKeepsWorst(cfg: Config, exec: Executor, s: State, exits: seq<Exit>, now: Time,
      capital: real)
    requires Solvency.PaysOut(exec) && WorstAt(cfg, s, now, capital) && s.deployed <= capital
    requires Costed(exits)
    ensures var s' := CloseAll(cfg, exec, s, exits, now);
      WorstAt(cfg, s', now, capital) && s'.deployed <= capital && DayMoved(s, s', now)
    decreases |exits|
  {
    hide ClosePosition, WorstAt, DayOf;
    if exits != [] {
      CloseKeepsWorst(cfg, exec, s, exits[0], now, Sweep, capital);
      CloseAllKeepsWorst(cfg, exec, ClosePosition(cfg, exec, s, exits[0], now, Sweep), exits[1..], now, capital);
    }
  }

  /** Slices leave the day's account alone. */
  lemma {:induction false} SlicesKeepDay(cfg: Config, exec: Executor, s: State, l: Launch, slices: seq<real>)
    requires s.controls.state.day == DayOf(l.createdAt)
    ensures var r, r' := s.controls.state, SendSlices(cfg, exec, s, l, slices).controls.state;
      r'.day == r.day && r'.dayRealizedPnl == r.dayRealizedPnl && r'.dailyLossTripped == r.dailyLossTripped
    decreases |slices|
  {
    hide AddFill, Opened, Prune, DayOf;
    if slices != [] {
      SlicesKeepDay(cfg, exec, TrySlice(cfg, exec, s, l, slices[0]).0, l, slices[1..]);
    }
  }

  /** The capital at work when an event begins to sell: for a launch, after its buys. */
  function AtWork(cfg: Config, exec: Executor, s: State, ev: Event): real
    requires cfg.Valid()
  {
    if ev.LaunchEvent? then Handle(cfg, exec, s, ev).deployed else s.deployed
  }

  lemma LaunchKeepsWorst(cfg: Config, exec: Executor, s: State, l: Launch, capital: real)
    requires cfg.Valid() && WorstAt(cfg, s, l.createdAt, capital)
    ensures var s' := OnLaunch(cfg, exec, s, l);
      WorstAt(cfg, s', l.createdAt, capital) && DayMoved(s, s', l.createdAt)
  {
    hide SendSlices, Strategy.PositionBudget, Strategy.SplitIntoSlices, LossLimit, Prune, DayOf;
    var settled := s.WithRisk(Settle(s.controls.state, l.createdAt));
    var budget := Strategy.PositionBudget(cfg, s.equity, s.deployed);
    SlicesKeepDay(cfg, exec, settled, l, Strategy.SplitIntoSlices(budget, cfg.funnelSlices));
  }

  lemma EventKeepsWorst(cfg: Config, exec: Executor, s: State, step: Step, capital: real)
    requires cfg.Valid() && Solvency.PaysOut(exec) && Charges(exec) && Coherent(s) && CostsCounted(s)
    requires WorstAt(cfg, s, step.ev.Ts(), capital) && AtWork(cfg, exec, s, step.ev) <= capital
    ensures var s' := OnEvent(cfg, exec, s, step);
      WorstAt(cfg, s', step.ev.Ts(), capital) && DayMoved(s, s', step.ev.Ts())
  {
    hide CloseAll, OnLaunch, Ruled, ClosePosition, Collect, DayOf, WorstAt, Coherent, CostsCounted;
    var now, handled := step.ev.Ts(), Handle(cfg, exec, s, step.ev);
    match step.ev {
      case LaunchEvent(l) => LaunchKeepsWorst(cfg, exec, s, l, capital);
      case PriceEvent(pu) => PriceKeepsWorst(cfg, exec, s, pu, capital);
    }
    var exits := Collect(cfg, handled.positions, step.order, now);
    HandledCosts(cfg, exec, s, step, handled);
    CloseAllKeepsWorst(cfg, exec, handled, exits, now, capital);
  }

  lemma PriceKeepsWorst(cfg: Config, exec: Executor, s: State, pu: PriceUpdate, capital: real)
    requires Solvency.PaysOut(exec) && CostsCounted(s) && WorstAt(cfg, s, pu.ts, capital) && s.deployed <= capital
    ensures var s' := OnPriceUpdate(cfg, exec, s, pu);
      WorstAt(cfg, s', pu.ts, capital) && s'.deployed <= capital && DayMoved(s, s', pu.ts)
  {
    hide Ruled, ClosePosition, DayOf;
    if pu.mint in s.positions {
      var (p, exit) := Ruled(cfg, s.positions[pu.mint], pu);
      TickTouches(cfg, s.positions[pu.mint], pu);
      if exit.Some? {
        CloseKeepsWorst(cfg, exec, ObserveTick(cfg, s, pu),
                        ExitAt(p, pu.priceUsd, pu.liquidityUsd, exit.value), pu.ts, OnTick, capital);
      }
    }
  }

  lemma HandledCosts(cfg: Config, exec: Executor, s: State, step: Step, handled: State)
    requires cfg.Valid() && Charges(exec) && Coherent(s) && CostsCounted(s) && handled == Handle(cfg, exec, s, step.ev)
    ensures Costed(Collect(cfg, handled.positions, step.order, step.ev.Ts()))
  {
    hide Handle;
    CostsAreInductive(cfg, exec);
    var inv := (s: State, _: Time) => CostsCounted(s);
    assert inv(s, step.ev.Ts());
    HandleKeeps(cfg, exec, inv, false, s, step.ev);
    assert inv(handled, step.ev.Ts());
    CollectsDue(cfg, handled.positions, step.order, step.ev.Ts());
    var exits := Collect(cfg, handled.positions, step.order, step.ev.Ts());
    forall i | 0 <= i < |exits| ensures exits[i].cost >= 0.0 {
      assert exits[i] in exits;
      assert IsDue(cfg, handled.positions, exits[i], step.ev.Ts());
    }
  }

  /** Worst day, against the limit. If an event of a legal run crosses the loss limit of its day, the
      P&L of that day never falls below the limit by more than the capital that was at work when the
      event began to sell. */
  lemma CrossedDayLosesAtMostAtWork(cfg: Config, exec: Executor, boot: Time, steps: seq<Step>, k: nat)
    requires cfg.Valid() && cfg.dailyLossLimitPct > 0.0 && Solvency.PaysOut(exec) && Charges(exec)
    requires LegalRun(cfg, exec, Initial(cfg, boot), steps) && k < |steps|
    ensures var before := Run(cfg, exec, Initial(cfg, boot), steps[..k]);
      var after := Run(cfg, exec, Initial(cfg, boot), steps[..k + 1]);
      var day := DayOf(steps[k].ev.Ts());
      !LatchedOn(before.controls.state, day) && LatchedOn(after.controls.state, day)
        && (forall i :: k < i < |steps| ==> DayOf(steps[i].ev.Ts()) == day) ==>
        Run(cfg, exec, Initial(cfg, boot), steps).controls.state.dayRealizedPnl >=
          LossLimit(cfg) - AtWork(cfg, exec, before, steps[k].ev)
  {
    hide LegalRun, DayOf, OnEvent, AtWork;
    var s0, day := Initial(cfg, boot), DayOf(steps[k].ev.Ts());
    var before, after := Run(cfg, exec, s0, steps[..k]), Run(cfg, exec, s0, steps[..k + 1]);
    assert steps[..k + 1][..k] == steps[..k];
    assert after == OnEvent(cfg, exec, before, steps[k]);
    hide Run;
    Trail.LegalPrefix(cfg, exec, s0, steps, k);
    RunIsCoherent(cfg, exec, boot, steps[..k]);
    RunCountsCosts(cfg, exec, boot, steps[..k]);
    LatchOrder.RunIsGuarded(cfg, exec, boot, steps[..k]);
    Conservation.LedgerConservation(cfg, exec, boot, steps);
    RunCountsCosts(cfg, exec, boot, steps);
    CostIsNonNegative(Run(cfg, exec, s0, steps).positions);
    if !LatchedOn(before.controls.state, day) && LatchedOn(after.controls.state, day)
      && forall i :: k < i < |steps| ==> DayOf(steps[i].ev.Ts()) == day {
      var capital := AtWork(cfg, exec, before, steps[k].ev);
      assert WorstAt(cfg, before, steps[k].ev.Ts(), capital);
      EventKeepsWorst(cfg, exec, before, steps[k], capital);
      assert steps == steps[..k + 1] + steps[k + 1..];
      RunAppends(cfg, exec, s0, steps[..k + 1], steps[k + 1..]);
      DayKeepsFloor(cfg, exec, after, steps[k + 1..], day);
    }
  }
}
