/** The most a day can lose, from the configuration alone. */
module DayLimit {
  import opened Decimals
  import opened Domain
  import opened Risk
  import opened Machine
  import opened Ledger
  import opened Moves
  import opened WorstDay
  import Conservation
  import Execution
  import Solvency
  import Strategy

  /** `n` times `x`. */
  function Times(n: nat, x: real): real { n as real * x }

  lemma OneTimesMore(n: nat, x: real)
    ensures Times(n + 1, x) == Times(n, x) + x
  {
    assert (n + 1) as real * x == (n as real + 1.0) * x;
  }

  lemma NoneTimes(x: real)
    ensures Times(0, x) == 0.0
  {}

  lemma TimesMonotone(m: nat, n: nat, x: real)
    requires m <= n && x >= 0.0
    ensures 0.0 <= Times(m, x) <= Times(n, x)
  {
    MulMonotone(x, 0.0, m as real);
    MulMonotone(x, m as real, n as real);
  }

  /** The most one position can cost: its budget, and one slack per funnel slice. */
  function PositionCap(cfg: Config, slack: real): real { cfg.maxSinglePosUsd + Times(cfg.funnelSlices, slack) }

  /** The most that can be at work. */
  function CapitalCap(cfg: Config, slack: real): real { Times(cfg.maxOpenPositions, PositionCap(cfg, slack)) }

  ghost predicate Capped(cfg: Config, s: State, slack: real) {
    forall m :: m in s.positions ==> s.positions[m].costUsd <= PositionCap(cfg, slack)
  }

  // ---- No position costs more than its cap ----

  function CostAt(s: State, m: Mint): real { if m in s.positions then s.positions[m].costUsd else 0.0 }

  lemma SliceCosts(cfg: Config, exec: Executor, s: State, l: Launch, slice: real, priced: real -> bool, slack: real)
    requires Solvency.CostsBounded(cfg, exec, priced, slack) && priced(l.priceUsd) && Execution.Faithful(exec)
    requires 0.0 <= slice <= cfg.maxSinglePosUsd
    ensures var s' := TrySlice(cfg, exec, s, l, slice).0;
      && CostAt(s', l.mint) <= CostAt(s, l.mint) + slice + slack
      && (forall m :: m in s'.positions && m != l.mint ==> m in s.positions && s'.positions[m] == s.positions[m])
  {
    hide Settle, SubmitSlice, Vwap;
    var order := SliceOrder(cfg, s, l, slice);
    assert Solvency.CostBoundedAt(cfg, exec, priced, slack, order);
    assert Execution.FaithfulAt(exec, order);
    SliceOutcome(cfg, exec, s, l, slice);
  }

  lemma {:induction false} SlicesCost(cfg: Config, exec: Executor, s: State, l: Launch, slices: seq<real>,
      priced: real -> bool, slack: real)
    requires Solvency.CostsBounded(cfg, exec, priced, slack) && priced(l.priceUsd) && Execution.Faithful(exec)
    requires forall i :: 0 <= i < |slices| ==> 0.0 <= slices[i] <= cfg.maxSinglePosUsd
    ensures var s' := SendSlices(cfg, exec, s, l, slices);
      && CostAt(s', l.mint) <= CostAt(s, l.mint) + Strategy.Sum(slices) + Times(|slices|, slack)
      && (forall m :: m in s'.positions && m != l.mint ==> m in s.positions && s'.positions[m] == s.positions[m])
    decreases |slices|
  {
    hide TrySlice, Times;
    NoneTimes(slack);
    if slices != [] {
      SliceCosts(cfg, exec, s, l, slices[0], priced, slack);
      SlicesCost(cfg, exec, TrySlice(cfg, exec, s, l, slices[0]).0, l, slices[1..], priced, slack);
      Solvency.SumNonNegative(slices[1..]);
      TimesMonotone(0, |slices| - 1, slack);
      OneTimesMore(|slices| - 1, slack);
    }
  }

  lemma LaunchKeepsCapped(cfg: Config, exec: Executor, s: State, l: Launch, priced: real -> bool, slack: real)
    requires cfg.Valid() && Solvency.CostsBounded(cfg, exec, priced, slack) && priced(l.priceUsd)
    requires Execution.Faithful(exec) && Capped(cfg, s, slack)
    ensures Capped(cfg, OnLaunch(cfg, exec, s, l), slack)
  {
    hide SendSlices, Settle, Strategy.PositionBudget, Strategy.SplitIntoSlices, Strategy.EntryGate, EntryBlock,
      PositionCap, Execution.Faithful;
    var budget := Strategy.PositionBudget(cfg, s.equity, s.deployed);
    if budget > 0.0 && l.mint !in s.positions {
      FunnelKeepsCapped(cfg, exec, s.WithRisk(Settle(s.controls.state, l.createdAt)), l, budget, priced, slack);
    }
  }

  lemma FunnelKeepsCapped(cfg: Config, exec: Executor, s: State, l: Launch, budget: real, priced: real -> bool,
      slack: real)
    requires cfg.Valid() && Solvency.CostsBounded(cfg, exec, priced, slack) && priced(l.priceUsd)
    requires Execution.Faithful(exec) && Capped(cfg, s, slack)
    requires l.mint !in s.positions && 0.0 < budget
    requires budget == Strategy.PositionBudget(cfg, s.equity, s.deployed)
    ensures Capped(cfg, SendSlices(cfg, exec, s, l, Strategy.SplitIntoSlices(budget, cfg.funnelSlices)), slack)
  {
    hide SendSlices, Strategy.PositionBudget, Strategy.SplitIntoSlices, Strategy.Sum, Execution.Faithful;
    var slices := Strategy.SplitIntoSlices(budget, cfg.funnelSlices);
    Strategy.BudgetIsCovered(cfg, s.equity, s.deployed);
    Strategy.SlicesAreExact(budget, cfg.funnelSlices);
    SlicesCost(cfg, exec, s, l, slices, priced, slack);
    TimesMonotone(|slices|, cfg.funnelSlices, slack);
    hide Times;
  }

  lemma CloseKeepsCapped(cfg: Config, exec: Executor, s: State, x: Exit, now: Time, cause: Cause, slack: real)
    requires Capped(cfg, s, slack)
    ensures Capped(cfg, ClosePosition(cfg, exec, s, x, now, cause), slack)
  {
    hide TradeOf, RecordPnl, PositionCap;
  }

  lemma {:induction false} CloseAllKeepsCapped(cfg: Config, exec: Executor, s: State, exits: seq<Exit>, now: Time,
      slack: real)
    requires Capped(cfg, s, slack)
    ensures Capped(cfg, CloseAll(cfg, exec, s, exits, now), slack)
    decreases |exits|
  {
    hide ClosePosition, Capped;
    if exits != [] {
      CloseKeepsCapped(cfg, exec, s, exits[0], now, Sweep, slack);
      CloseAllKeepsCapped(cfg, exec, ClosePosition(cfg, exec, s, exits[0], now, Sweep), exits[1..], now, slack);
    }
  }

  lemma HandleKeepsCapped(cfg: Config, exec: Executor, s: State, ev: Event, priced: real -> bool, slack: real)
    requires cfg.Valid() && Solvency.CostsBounded(cfg, exec, priced, slack) && Solvency.PricedAs(ev, priced)
    requires Execution.Faithful(exec) && Capped(cfg, s, slack)
    ensures Capped(cfg, Handle(cfg, exec, s, ev), slack)
  {
    hide OnLaunch, ClosePosition, Ruled, PositionCap, Execution.Faithful;
    match ev
    case LaunchEvent(l) => LaunchKeepsCapped(cfg, exec, s, l, priced, slack);
    case PriceEvent(pu) =>
      if pu.mint in s.positions {
        var (p, exit) := Ruled(cfg, s.positions[pu.mint], pu);
        TickTouches(cfg, s.positions[pu.mint], pu);
        var observed := ObserveTick(cfg, s, pu);
        assert Capped(cfg, observed, slack);
        if exit.Some? {
          CloseKeepsCapped(cfg, exec, observed, ExitAt(p, pu.priceUsd, pu.liquidityUsd, exit.value), pu.ts, OnTick,
                           slack);
        }
      }
  }

  // ---- The book costs no more than all positions at their cap ----

  lemma {:induction false} BookCostsAtMost(book: map<Mint, Position>, cap: real)
    requires forall m :: m in book ==> book[m].costUsd <= cap
    ensures SumCost(book) <= Times(|book|, cap)
    decreases |book|
  {
    hide Times;
    if book == map[] {
      assert Times(0, cap) == 0.0 by { NoneTimes(cap); }
    } else {
      var m :| m in book;
      var rest := book - {m};
      SumCostSplit(book, m);
      BookCostsAtMost(rest, cap);
      assert |book| == |rest| + 1;
      OneTimesMore(|rest|, cap);
    }
  }

  lemma AtMostCapital(cfg: Config, s: State, slack: real)
    requires cfg.Valid() && slack >= 0.0 && Capped(cfg, s, slack) && |s.positions| <= cfg.maxOpenPositions
    requires s.deployed == SumCost(s.positions)
    ensures s.deployed <= CapitalCap(cfg, slack)
  {
    hide Times, SumCost;
    var cap := PositionCap(cfg, slack);
    TimesMonotone(0, cfg.funnelSlices, slack);
    BookCostsAtMost(s.positions, cap);
    TimesMonotone(|s.positions|, cfg.maxOpenPositions, cap);
  }

  // ---- Over runs ----

  /** What the theorem asks of an executor: fills are for the ordered token, buys cost at most their
      slice plus `slack` and never less than nothing, and sells never cost money. */
  ghost predicate Fair(cfg: Config, exec: Executor, priced: real -> bool, slack: real) {
    && Execution.Faithful(exec) && Charges(exec)
    && Solvency.CostsBounded(cfg, exec, priced, slack) && Solvency.PaysOut(exec)
  }

  ghost predicate DayInv(cfg: Config, s: State, slack: real) {
    Capped(cfg, s, slack) && Worst(cfg, s.controls.state, s.deployed, CapitalCap(cfg, slack))
  }

  lemma HandledCapital(cfg: Config, exec: Executor, s: State, ev: Event, priced: real -> bool, slack: real)
    requires cfg.Valid() && Fair(cfg, exec, priced, slack) && Solvency.PricedAs(ev, priced)
    requires Coherent(s) && Conservation.Balanced(cfg, s) && Capped(cfg, s, slack)
    requires |s.positions| <= cfg.maxOpenPositions
    ensures Capped(cfg, Handle(cfg, exec, s, ev), slack)
    ensures AtWork(cfg, exec, s, ev) <= CapitalCap(cfg, slack)
  {
    hide Handle, CapitalCap, Coherent;
    HandleKeepsCapped(cfg, exec, s, ev, priced, slack);
    Conservation.BalancedIsInductive(cfg, exec);
    var inv := (u: State, _: Time) => Conservation.Balanced(cfg, u);
    assert inv(s, ev.Ts());
    HandleKeeps(cfg, exec, inv, false, s, ev);
    assert inv(Handle(cfg, exec, s, ev), ev.Ts());
    Solvency.HandleKeepsCap(cfg, exec, s, ev);
    AtMostCapital(cfg, s, slack);
    AtMostCapital(cfg, Handle(cfg, exec, s, ev), slack);
  }

  lemma EventKeepsDayInv(cfg: Config, exec: Executor, s: State, step: Step, priced: real -> bool, slack: real)
    requires cfg.Valid() && LossLimit(cfg) < 0.0 && Fair(cfg, exec, priced, slack)
    requires Solvency.PricedAs(step.ev, priced)
    requires Coherent(s) && Conservation.Balanced(cfg, s) && CostsCounted(s) && DayInv(cfg, s, slack)
    requires |s.positions| <= cfg.maxOpenPositions
    ensures DayInv(cfg, OnEvent(cfg, exec, s, step), slack)
  {
    hide Handle, CapitalCap, Coherent, Conservation.Balanced, CostsCounted, LossLimit, DayOf, Capped, CloseAll, Collect,
      AtWork;
    var now, capital := step.ev.Ts(), CapitalCap(cfg, slack);
    HandledCapital(cfg, exec, s, step.ev, priced, slack);
    EventKeepsWorst(cfg, exec, s, step, capital);
    var handled := Handle(cfg, exec, s, step.ev);
    CloseAllKeepsCapped(cfg, exec, handled, Collect(cfg, handled.positions, step.order, now), now, slack);
  }

  lemma {:induction false} RunKeepsDayInv(cfg: Config, exec: Executor, boot: Time, steps: seq<Step>,
      priced: real -> bool, slack: real)
    requires cfg.Valid() && cfg.dailyLossLimitPct > 0.0 && Fair(cfg, exec, priced, slack)
    requires LegalRun(cfg, exec, Initial(cfg, boot), steps)
    requires forall i :: 0 <= i < |steps| ==> Solvency.PricedAs(steps[i].ev, priced)
    ensures DayInv(cfg, Run(cfg, exec, Initial(cfg, boot), steps), slack)
  {
    hide OnEvent, Legal, CapitalCap, Fair;
    assert LossLimit(cfg) < 0.0;
    if steps != [] {
      var front := steps[..|steps| - 1];
      RunKeepsDayInv(cfg, exec, boot, front, priced, slack);
      FairIs(cfg, exec, priced, slack);
      RunIsCoherent(cfg, exec, boot, front);
      Conservation.LedgerConservation(cfg, exec, boot, front);
      RunCountsCosts(cfg, exec, boot, front);
      Solvency.OpenPositionsAreCapped(cfg, exec, boot, front);
      hide DayInv, LossLimit, Coherent, Conservation.Balanced, CostsCounted;
      EventKeepsDayInv(cfg, exec, Run(cfg, exec, Initial(cfg, boot), front), steps[|steps| - 1], priced, slack);
    }
  }

  lemma FairIs(cfg: Config, exec: Executor, priced: real -> bool, slack: real)
    ensures Fair(cfg, exec, priced, slack) ==> Execution.Faithful(exec) && Charges(exec)
  {}

  /** The day's limit. After any legal run, the day's P&L is never below the configured loss limit by
      more than the capital of a full book, every position at its cap: the limit, the position cap and
      the sizing rules together bound what any day can lose, whatever the prices do. */
  lemma DayLossIsLimited(cfg: Config, exec: Executor, boot: Time, steps: seq<Step>, priced: real -> bool, slack: real)
    requires cfg.Valid() && cfg.dailyLossLimitPct > 0.0 && Fair(cfg, exec, priced, slack)
    requires LegalRun(cfg, exec, Initial(cfg, boot), steps)
    requires forall i :: 0 <= i < |steps| ==> Solvency.PricedAs(steps[i].ev, priced)
    ensures Run(cfg, exec, Initial(cfg, boot), steps).controls.state.dayRealizedPnl >=
      LossLimit(cfg) - CapitalCap(cfg, slack)
  {
    hide Run, LegalRun, CapitalCap, LossLimit, Fair, Solvency.PricedAs;
    var s := Run(cfg, exec, Initial(cfg, boot), steps);
    RunKeepsDayInv(cfg, exec, boot, steps, priced, slack);
    FairIs(cfg, exec, priced, slack);
    Conservation.LedgerConservation(cfg, exec, boot, steps);
    RunCountsCosts(cfg, exec, boot, steps);
    CostIsNonNegative(s.positions);
    CapitalIsNonNegative(cfg, exec, priced, slack);
  }

  lemma CapitalIsNonNegative(cfg: Config, exec: Executor, priced: real -> bool, slack: real)
    requires cfg.Valid() && Fair(cfg, exec, priced, slack)
    ensures CapitalCap(cfg, slack) >= 0.0
  {
    hide Times;
    TimesMonotone(0, cfg.funnelSlices, slack);
    TimesMonotone(0, cfg.maxOpenPositions, PositionCap(cfg, slack));
  }
}
