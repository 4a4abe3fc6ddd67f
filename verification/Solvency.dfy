/** Capital limits over whole runs: the bot never spends money it does not have, and never holds
    more positions than configured. */
module Solvency {
  import opened Decimals
  import opened Domain
  import opened Risk
  import opened Machine
  import opened Moves
  import opened Execution
  import Strategy

  /** A buy fill of an order within the position cap, at a reference price as given, costs at most
      its slice plus `slack`. */
  ghost predicate CostsBounded(cfg: Config, exec: Executor, priced: real -> bool, slack: real) {
    slack >= 0.0 && forall o: Order :: CostBoundedAt(cfg, exec, priced, slack, o)
  }

  predicate CostBoundedAt(cfg: Config, exec: Executor, priced: real -> bool, slack: real, o: Order) {
    o.BuyOrder? && o.budgetUsd <= cfg.maxSinglePosUsd && priced(o.priceUsd) && exec(o).Filled? ==>
      exec(o).fill.notionalUsd + exec(o).fill.feeUsd <= o.budgetUsd + slack
  }

  /** A sell fill never costs money. */
  ghost predicate PaysOut(exec: Executor) {
    forall o: Order :: PaysOutAt(exec, o)
  }

  predicate PaysOutAt(exec: Executor, o: Order) {
    o.SellOrder? && exec(o).Filled? ==> Proceeds(exec(o).fill) >= 0.0
  }

  predicate PricedAs(ev: Event, priced: real -> bool) {
    ev.LaunchEvent? ==> priced(ev.launch.priceUsd)
  }

  lemma SliceSpends(cfg: Config, exec: Executor, s: State, l: Launch, slice: real,
                    priced: real -> bool, slack: real)
    requires CostsBounded(cfg, exec, priced, slack) && priced(l.priceUsd)
    requires 0.0 <= slice <= cfg.maxSinglePosUsd
    ensures TrySlice(cfg, exec, s, l, slice).0.Free() >= s.Free() - slice - slack
  {
    hide AddFill, Settle;
    assert CostBoundedAt(cfg, exec, priced, slack, SliceOrder(cfg, s, l, slice));
  }

  lemma {:induction false} SlicesSpend(cfg: Config, exec: Executor, s: State, l: Launch, slices: seq<real>,
                                       priced: real -> bool, slack: real)
    requires CostsBounded(cfg, exec, priced, slack) && priced(l.priceUsd)
    requires forall i :: 0 <= i < |slices| ==> 0.0 <= slices[i] <= cfg.maxSinglePosUsd
    ensures SendSlices(cfg, exec, s, l, slices).Free() >=
      s.Free() - Strategy.Sum(slices) - slack * |slices| as real
    decreases |slices|
  {
    hide TrySlice;
    if slices != [] {
      SliceSpends(cfg, exec, s, l, slices[0], priced, slack);
      SlicesSpend(cfg, exec, TrySlice(cfg, exec, s, l, slices[0]).0, l, slices[1..], priced, slack);
      SumNonNegative(slices[1..]);
      OneMore(slack, (|slices| - 1) as real);
    }
  }

  lemma OneMore(c: real, n: real)
    requires c >= 0.0 && n >= 0.0
    ensures c * (n + 1.0) == c * n + c && c * n >= 0.0
  {}

  lemma {:induction false} SumNonNegative(xs: seq<real>)
    requires forall i :: 0 <= i < |xs| ==> xs[i] >= 0.0
    ensures Strategy.Sum(xs) >= 0.0
  {
    if xs != [] {
      SumNonNegative(xs[1..]);
    }
  }

  lemma CloseEarns(cfg: Config, exec: Executor, s: State, x: Exit, now: Time, cause: Cause)
    requires PaysOut(exec)
    ensures ClosePosition(cfg, exec, s, x, now, cause).Free() >= s.Free()
  {
    hide PnlPct, LossLimit, CountFailure, Round12;
    assert PaysOutAt(exec, ExitOrder(s.orderSeq + 1, x, now));
  }

  lemma {:induction false} CloseAllEarns(cfg: Config, exec: Executor, s: State, exits: seq<Exit>, now: Time)
    requires PaysOut(exec)
    ensures CloseAll(cfg, exec, s, exits, now).Free() >= s.Free()
    decreases |exits|
  {
    hide ClosePosition;
    if exits != [] {
      CloseEarns(cfg, exec, s, exits[0], now, Sweep);
      CloseAllEarns(cfg, exec, ClosePosition(cfg, exec, s, exits[0], now, Sweep), exits[1..], now);
    }
  }

  /** The floor under free capital: one slack per slice of a single funnel. */
  function Floor(cfg: Config, slack: real): real { -(slack * cfg.funnelSlices as real) }

  lemma LaunchStaysSolvent(cfg: Config, exec: Executor, s: State, l: Launch,
      priced: real -> bool, slack: real)
    requires cfg.Valid() && CostsBounded(cfg, exec, priced, slack) && priced(l.priceUsd)
    requires s.Free() >= Floor(cfg, slack)
    ensures OnLaunch(cfg, exec, s, l).Free() >= Floor(cfg, slack)
  {
    hide SendSlices, Settle, Strategy.PositionBudget, Strategy.SplitIntoSlices, Strategy.EntryGate, EntryBlock;
    var budget := Strategy.PositionBudget(cfg, s.equity, s.deployed);
    if budget > 0.0 {
      FunnelStaysSolvent(cfg, exec, s, s.WithRisk(Settle(s.controls.state, l.createdAt)), l, priced, slack);
    }
  }

  lemma FunnelStaysSolvent(cfg: Config, exec: Executor, s: State, settled: State, l: Launch,
                           priced: real -> bool, slack: real)
    requires cfg.Valid() && CostsBounded(cfg, exec, priced, slack) && priced(l.priceUsd)
    requires settled.Free() == s.Free() && Strategy.PositionBudget(cfg, s.equity, s.deployed) > 0.0
    ensures var budget := Strategy.PositionBudget(cfg, s.equity, s.deployed);
      SendSlices(cfg, exec, settled, l, Strategy.SplitIntoSlices(budget, cfg.funnelSlices)).Free() >= Floor(cfg, slack)
  {
    hide SendSlices, Strategy.PositionBudget, Strategy.SplitIntoSlices, Strategy.Sum;
    var budget := Strategy.PositionBudget(cfg, s.equity, s.deployed);
    var slices := Strategy.SplitIntoSlices(budget, cfg.funnelSlices);
    Strategy.BudgetIsCovered(cfg, s.equity, s.deployed);
    Strategy.SlicesAreExact(budget, cfg.funnelSlices);
    SlicesSpend(cfg, exec, settled, l, slices, priced, slack);
    MulMonotone(slack, |slices| as real, cfg.funnelSlices as real);
  }

  lemma PriceEarns(cfg: Config, exec: Executor, s: State, pu: PriceUpdate)
    requires PaysOut(exec)
    ensures OnPriceUpdate(cfg, exec, s, pu).Free() >= s.Free()
  {
    hide ClosePosition, Ruled;
    if pu.mint in s.positions && Ruled(cfg, s.positions[pu.mint], pu).1.Some? {
      var (p, exit) := Ruled(cfg, s.positions[pu.mint], pu);
      CloseEarns(cfg, exec, ObserveTick(cfg, s, pu),
                 ExitAt(p, pu.priceUsd, pu.liquidityUsd, exit.value), pu.ts, OnTick);
    }
  }

  lemma EventStaysSolvent(cfg: Config, exec: Executor, s: State, step: Step,
      priced: real -> bool, slack: real)
    requires cfg.Valid() && CostsBounded(cfg, exec, priced, slack) && PaysOut(exec)
    requires PricedAs(step.ev, priced) && s.Free() >= Floor(cfg, slack)
    ensures OnEvent(cfg, exec, s, step).Free() >= Floor(cfg, slack)
  {
    hide OnLaunch, OnPriceUpdate, CloseAll, Floor;
    match step.ev {
      case LaunchEvent(l) => LaunchStaysSolvent(cfg, exec, s, l, priced, slack);
      case PriceEvent(pu) => PriceEarns(cfg, exec, s, pu);
    }
    var handled := Handle(cfg, exec, s, step.ev);
    CloseAllEarns(cfg, exec, handled, Collect(cfg, handled.positions, step.order, step.ev.Ts()), step.ev.Ts());
  }

  /** Solvency. If a buy fill never costs more than its slice plus `slack`, and sells never cost
      money, free capital never falls below minus one slack per funnel slice, in any run, however
      many positions are opened: overspending does not accumulate. */
  lemma {:induction false} FreeCapitalIsBounded(cfg: Config, exec: Executor, boot: Time, steps: seq<Step>,
                                                priced: real -> bool, slack: real)
    requires cfg.Valid() && CostsBounded(cfg, exec, priced, slack) && PaysOut(exec)
    requires forall i :: 0 <= i < |steps| ==> PricedAs(steps[i].ev, priced)
    ensures Run(cfg, exec, Initial(cfg, boot), steps).Free() >= -(slack * cfg.funnelSlices as real)
    decreases |steps|
  {
    hide OnEvent;
    OneMore(slack, cfg.funnelSlices as real);
    if steps != [] {
      var front := steps[..|steps| - 1];
      FreeCapitalIsBounded(cfg, exec, boot, front, priced, slack);
      EventStaysSolvent(cfg, exec, Run(cfg, exec, Initial(cfg, boot), front), steps[|steps| - 1], priced, slack);
    }
  }

  // ---- Position cap ----

  lemma {:induction false} SlicesOpenOne(cfg: Config, exec: Executor, s: State, l: Launch, slices: seq<real>)
    requires Faithful(exec)
    ensures SendSlices(cfg, exec, s, l, slices).positions.Keys <= s.positions.Keys + {l.mint}
    decreases |slices|
  {
    if slices != [] {
      assert FaithfulAt(exec, SliceOrder(cfg, s, l, slices[0]));
      SliceOutcome(cfg, exec, s, l, slices[0]);
      SlicesOpenOne(cfg, exec, TrySlice(cfg, exec, s, l, slices[0]).0, l, slices[1..]);
    }
  }

  lemma {:induction false} CloseAllOpensNone(cfg: Config, exec: Executor, s: State, exits: seq<Exit>, now: Time)
    ensures CloseAll(cfg, exec, s, exits, now).positions.Keys <= s.positions.Keys
    decreases |exits|
  {
    hide TradeOf, RecordPnl, CountFailure;
    if exits != [] {
      CloseAllOpensNone(cfg, exec, ClosePosition(cfg, exec, s, exits[0], now, Sweep), exits[1..], now);
    }
  }

  lemma HandleKeepsCap(cfg: Config, exec: Executor, s: State, ev: Event)
    requires cfg.Valid() && Faithful(exec) && Coherent(s) && |s.positions| <= cfg.maxOpenPositions
    ensures |Handle(cfg, exec, s, ev).positions| <= cfg.maxOpenPositions
  {
    hide SendSlices, Settle, LossLimit, Strategy.PositionBudget, ClosePosition, Ruled;
    match ev
    case LaunchEvent(l) =>
      var settled := s.WithRisk(Settle(s.controls.state, l.createdAt));
      var budget := Strategy.PositionBudget(cfg, s.equity, s.deployed);
      if EntryBlock(cfg, settled.controls).None? && budget > 0.0 {
        var slices := Strategy.SplitIntoSlices(budget, cfg.funnelSlices);
        SlicesOpenOne(cfg, exec, settled, l, slices);
        Fewer(SendSlices(cfg, exec, settled, l, slices).positions.Keys, s.positions.Keys + {l.mint});
      }
    case PriceEvent(pu) =>
      if pu.mint in s.positions {
        var observed := ObserveTick(cfg, s, pu);
        assert observed.positions.Keys == s.positions.Keys;
        var (p, exit) := Ruled(cfg, s.positions[pu.mint], pu);
        if exit.Some? {
          var x := ExitAt(p, pu.priceUsd, pu.liquidityUsd, exit.value);
          ClosedKeys(cfg, exec, observed, x, pu.ts, OnTick);
          Fewer(ClosePosition(cfg, exec, observed, x, pu.ts, OnTick).positions.Keys, s.positions.Keys);
        }
      }
  }

  lemma ClosedKeys(cfg: Config, exec: Executor, s: State, x: Exit, now: Time, cause: Cause)
    ensures ClosePosition(cfg, exec, s, x, now, cause).positions.Keys <= s.positions.Keys
  {
    hide TradeOf, RecordPnl, CountFailure;
  }

  lemma Fewer<T>(a: set<T>, b: set<T>)
    requires a <= b
    ensures |a| <= |b|
  {
    assert b == a + (b - a);
  }

  /** Position cap. No legal run ever holds more positions than configured. */
  lemma {:induction false} OpenPositionsAreCapped(cfg: Config, exec: Executor, boot: Time, steps: seq<Step>)
    requires cfg.Valid() && Faithful(exec) && LegalRun(cfg, exec, Initial(cfg, boot), steps)
    ensures |Run(cfg, exec, Initial(cfg, boot), steps).positions| <= cfg.maxOpenPositions
    decreases |steps|
  {
    if steps != [] {
      var front, last := steps[..|steps| - 1], steps[|steps| - 1];
      OpenPositionsAreCapped(cfg, exec, boot, front);
      RunIsCoherent(cfg, exec, boot, front);
      var s := Run(cfg, exec, Initial(cfg, boot), front);
      HandleKeepsCap(cfg, exec, s, last.ev);
      var handled := Handle(cfg, exec, s, last.ev);
      var exits := Collect(cfg, handled.positions, last.order, last.ev.Ts());
      CloseAllOpensNone(cfg, exec, handled, exits, last.ev.Ts());
      Fewer(CloseAll(cfg, exec, handled, exits, last.ev.Ts()).positions.Keys, handled.positions.Keys);
    }
  }
}
