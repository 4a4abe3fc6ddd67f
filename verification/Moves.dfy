/** The elementary moves of the engine and the invariant principle over them.

    Every event is a chain of four kinds of move. A property that each enabled move preserves
    therefore holds in every state a legal run reaches; the theorems about runs only look at
    moves. */
module Moves {
  import opened Domain
  import opened Risk
  import opened Machine
  import Decimals
  import Execution
  import Strategy

  datatype Move =
    | Settling(now: Time)
    | Slicing(launch: Launch, slice: real)
    | Ticking(pu: PriceUpdate)
    | Selling(exit: Exit, at: Time, cause: Cause)
  {
    function Now(): Time {
      match this
      case Settling(t) => t
      case Slicing(l, _) => l.createdAt
      case Ticking(pu) => pu.ts
      case Selling(_, t, _) => t
    }
  }

  /** Every position is filed under its own mint and the position count is the book's. */
  ghost predicate Coherent(s: State) {
    && (forall m :: m in s.positions ==> s.positions[m].mint == m)
    && s.controls.openPositions == |s.positions|
  }

  /** The last thing that happened is a filled funnel slice of `m`. */
  predicate LastIsSliceOf(tape: seq<Entry>, m: Mint) {
    && tape != []
    && var e := tape[|tape| - 1];
    && e.Traded? && e.order.BuyOrder? && e.order.mint == m && e.reply.Filled?
  }

  /** A tick of the token has just been observed, and the price rules asked for this exit. */
  ghost predicate Fired(cfg: Config, s: State, x: Exit, now: Time)
    requires x.mint in s.positions
  {
    && s.tape != [] && s.tape[|s.tape| - 1] == Ticked(x.mint, x.refPrice, x.liquidityUsd, now)
    && exists before: Position :: FiredFrom(cfg, before, s.positions[x.mint], x, now)
  }

  predicate FiredFrom(cfg: Config, before: Position, p: Position, x: Exit, now: Time) {
    Ruled(cfg, before, PriceUpdate(x.mint, now, x.refPrice, x.liquidityUsd)) == (p, Some(x.reason))
  }

  /** What the engine has checked when it makes a move. */
  ghost predicate Enabled(cfg: Config, s: State, mv: Move) {
    match mv
    case Settling(_) => true
    case Slicing(l, slice) =>
      var settled := Settle(s.controls.state, l.createdAt);
      && (l.mint !in s.positions || LastIsSliceOf(s.tape, l.mint))
      && ThrottleBlock(cfg, settled).None?
      && !settled.kill && !settled.dailyLossTripped && settled.dayRealizedPnl > LossLimit(cfg)
    case Ticking(pu) => pu.mint in s.positions
    case Selling(x, now, cause) =>
      && cause != Funnel
      && x.mint in s.positions
      && Matches(x, s.positions[x.mint])
      && (cause == Sweep ==>
            Expired(cfg, s.positions[x.mint], now).Some? && x == ExitOf(cfg, s.positions[x.mint], now))
      && (cause == OnTick ==> Fired(cfg, s, x, now))
  }

  /** The exit carries the position's own quantity, cost, mode and entry price. */
  predicate Matches(x: Exit, p: Position) {
    x == ExitAt(p, x.refPrice, x.liquidityUsd, x.reason)
  }

  function Apply(cfg: Config, exec: Executor, s: State, mv: Move): State
    requires mv.Ticking? ==> mv.pu.mint in s.positions
  {
    match mv
    case Settling(now) => s.WithRisk(Settle(s.controls.state, now))
    case Slicing(l, slice) => SubmitSlice(cfg, exec, s, l, slice)
    case Ticking(pu) => ObserveTick(cfg, s, pu)
    case Selling(x, now, cause) => ClosePosition(cfg, exec, s, x, now, cause)
  }

  /** A property of a state and the time of the latest event. */
  type Property = (State, Time) -> bool

  /** Every enabled move preserves `inv`, and so does the mere passing of time. With `timed`,
      only moves that do not go back in time are considered. */
  ghost predicate Inductive(cfg: Config, exec: Executor, inv: Property, timed: bool) {
    && (forall s: State, t: Time, mv: Move {:trigger inv(s, t), Enabled(cfg, s, mv)} ::
          inv(s, t) && Coherent(s) && (timed ==> t <= mv.Now()) && Enabled(cfg, s, mv)
          ==> inv(Apply(cfg, exec, s, mv), mv.Now()))
    && (forall s: State, t: Time, u: Time {:trigger inv(s, t), inv(s, u)} ::
          inv(s, t) && (timed ==> t <= u) ==> inv(s, u))
  }

  /** A tick touches only the marks, the high-water mark and the mode. */
  lemma TickTouches(cfg: Config, p: Position, pu: PriceUpdate)
    ensures var q := Ruled(cfg, p, pu).0;
      q == Marked(p, pu).(highWater := Decimals.Max(p.highWater, pu.priceUsd), mode := q.mode)
  {}

  /** What one slice does to the tape and the book, when the executor keeps its contract. */
  lemma SliceOutcome(cfg: Config, exec: Executor, s: State, l: Launch, slice: real)
    requires Execution.FaithfulAt(exec, SliceOrder(cfg, s, l, slice))
    ensures var s' := SubmitSlice(cfg, exec, s, l, slice);
      var e := Traded(SliceOrder(cfg, s, l, slice), exec(SliceOrder(cfg, s, l, slice)), Funnel);
      && s'.tape == s.tape + [e]
      && s'.positions ==
         if e.reply.Failed? then s.positions
         else if l.mint in s.positions
         then s.positions[l.mint := AddFill(s.positions[l.mint], e.reply.fill, l.liquidityUsd)]
         else s.positions[l.mint :=
           AddFill(Opened(e.reply.fill, l.launchpad, l.liquidityUsd), e.reply.fill, l.liquidityUsd)]
  {
    hide AddFill, Settle;
  }

  /** What one exit attempt does to the tape and the book. */
  lemma ExitOutcome(cfg: Config, exec: Executor, s: State, x: Exit, now: Time, cause: Cause)
    requires x.mint in s.positions
    ensures var s' := ClosePosition(cfg, exec, s, x, now, cause);
      var e := Traded(ExitOrder(s.orderSeq + 1, x, now), exec(ExitOrder(s.orderSeq + 1, x, now)), cause);
      && s'.tape == s.tape + [e]
      && s'.positions ==
         if e.reply.Filled? then s.positions - {x.mint}
         else s.positions[x.mint := CountFailure(cfg, s.positions[x.mint])]
  {
    hide TradeOf, RecordPnl;
  }

  lemma MoveKeepsCoherent(cfg: Config, exec: Executor, s: State, mv: Move)
    requires Coherent(s) && Enabled(cfg, s, mv)
    ensures Coherent(Apply(cfg, exec, s, mv))
  {}

  lemma ByMove(cfg: Config, exec: Executor, inv: Property, timed: bool, s: State,
      t: Time, mv: Move)
    requires Inductive(cfg, exec, inv, timed) && inv(s, t) && Coherent(s)
    requires (timed ==> t <= mv.Now()) && Enabled(cfg, s, mv)
    ensures inv(Apply(cfg, exec, s, mv), mv.Now()) && Coherent(Apply(cfg, exec, s, mv))
  {
    MoveKeepsCoherent(cfg, exec, s, mv);
  }

  lemma SettleTwice(r: RiskState, now: Time)
    ensures Settle(Settle(r, now), now) == Settle(r, now)
  {
    PruneTwice(Rollover(r, now).recentOrders, now);
  }

  lemma {:induction false} PruneTwice(orders: seq<Time>, now: Time)
    ensures Prune(Prune(orders, now), now) == Prune(orders, now)
  {
    if orders != [] && NumSeconds(now - orders[0]) >= WINDOW_SECS {
      PruneTwice(orders[1..], now);
    }
  }

  /** The entry checks have passed for this launch and nothing but slices has happened since. */
  ghost predicate Cleared(cfg: Config, s: State, l: Launch) {
    var settled := Settle(s.controls.state, l.createdAt);
    && (l.mint !in s.positions || LastIsSliceOf(s.tape, l.mint))
    && !settled.kill && !settled.dailyLossTripped && settled.dayRealizedPnl > LossLimit(cfg)
  }

  lemma SubmitKeepsCleared(cfg: Config, exec: Executor, s: State, l: Launch, slice: real)
    requires Cleared(cfg, s, l) && exec(SliceOrder(cfg, s, l, slice)).Filled?
    ensures Cleared(cfg, SubmitSlice(cfg, exec, s, l, slice), l)
  {
    assert DayOf(l.createdAt) == Settle(s.controls.state, l.createdAt).day;
  }

  lemma {:induction false} SlicesKeep(cfg: Config, exec: Executor, inv: Property, timed: bool,
                                      s: State, l: Launch, slices: seq<real>)
    requires Inductive(cfg, exec, inv, timed) && inv(s, l.createdAt) && Coherent(s)
    requires Cleared(cfg, s, l)
    ensures inv(SendSlices(cfg, exec, s, l, slices), l.createdAt)
    ensures Coherent(SendSlices(cfg, exec, s, l, slices))
    decreases |slices|
  {
    if slices != [] {
      var settled := Settle(s.controls.state, l.createdAt);
      var (s', more) := TrySlice(cfg, exec, s, l, slices[0]);
      if ThrottleBlock(cfg, settled).Some? {
        ByMove(cfg, exec, inv, timed, s, l.createdAt, Settling(l.createdAt));
      } else {
        ByMove(cfg, exec, inv, timed, s, l.createdAt, Slicing(l, slices[0]));
        if more {
          SubmitKeepsCleared(cfg, exec, s, l, slices[0]);
          SlicesKeep(cfg, exec, inv, timed, s', l, slices[1..]);
        }
      }
    }
  }

  lemma LaunchKeeps(cfg: Config, exec: Executor, inv: Property, timed: bool, s: State, l: Launch)
    requires cfg.Valid()
    requires Inductive(cfg, exec, inv, timed) && inv(s, l.createdAt) && Coherent(s)
    ensures inv(OnLaunch(cfg, exec, s, l), l.createdAt) && Coherent(OnLaunch(cfg, exec, s, l))
  {
    var now := l.createdAt;
    if l.mint !in s.positions && Strategy.EntryGate(cfg, l, now).None? {
      ByMove(cfg, exec, inv, timed, s, now, Settling(now));
      SettleTwice(s.controls.state, now);
      var settled := s.WithRisk(Settle(s.controls.state, now));
      var budget := Strategy.PositionBudget(cfg, s.equity, s.deployed);
      if EntryBlock(cfg, settled.controls).None? && budget > 0.0 {
        SlicesKeep(cfg, exec, inv, timed, settled, l,
                   Strategy.SplitIntoSlices(budget, cfg.funnelSlices));
      }
    }
  }

  lemma RuledKeepsMint(cfg: Config, p: Position, pu: PriceUpdate)
    ensures Ruled(cfg, p, pu).0.mint == p.mint
  {}

  lemma PriceKeeps(cfg: Config, exec: Executor, inv: Property, timed: bool, s: State,
      pu: PriceUpdate)
    requires Inductive(cfg, exec, inv, timed) && inv(s, pu.ts) && Coherent(s)
    ensures inv(OnPriceUpdate(cfg, exec, s, pu), pu.ts) && Coherent(OnPriceUpdate(cfg, exec, s, pu))
  {
    if pu.mint in s.positions {
      ByMove(cfg, exec, inv, timed, s, pu.ts, Ticking(pu));
      var observed := ObserveTick(cfg, s, pu);
      var (p, exit) := Ruled(cfg, s.positions[pu.mint], pu);
      if exit.Some? {
        var x := ExitAt(p, pu.priceUsd, pu.liquidityUsd, exit.value);
        RuledKeepsMint(cfg, s.positions[pu.mint], pu);
        assert FiredFrom(cfg, s.positions[pu.mint], observed.positions[x.mint], x, pu.ts);
        ByMove(cfg, exec, inv, timed, observed, pu.ts, Selling(x, pu.ts, OnTick));
      }
    }
  }

  /** Every collected exit still describes an expired open position, one per token. */
  ghost predicate Pending(cfg: Config, s: State, exits: seq<Exit>, now: Time) {
    && (forall i :: 0 <= i < |exits| ==> Enabled(cfg, s, Selling(exits[i], now, Sweep)))
    && (forall i, j :: 0 <= i < j < |exits| ==> exits[i].mint != exits[j].mint)
  }

  lemma {:induction false} CollectedArePending(cfg: Config, s: State, order: seq<Mint>, now: Time)
    requires Coherent(s) && Distinct(order)
    ensures Pending(cfg, s, Collect(cfg, s.positions, order, now), now)
    ensures forall i :: 0 <= i < |Collect(cfg, s.positions, order, now)| ==>
      Collect(cfg, s.positions, order, now)[i].mint in order
  {
    if order != [] {
      CollectedArePending(cfg, s, order[..|order| - 1], now);
    }
  }

  lemma CloseKeepsPending(cfg: Config, exec: Executor, s: State, exits: seq<Exit>, now: Time)
    requires exits != [] && Pending(cfg, s, exits, now)
    ensures Pending(cfg, ClosePosition(cfg, exec, s, exits[0], now, Sweep), exits[1..], now)
  {}

  lemma {:induction false} CloseAllKeeps(cfg: Config, exec: Executor, inv: Property, timed: bool,
                                         s: State, exits: seq<Exit>, now: Time)
    requires Inductive(cfg, exec, inv, timed) && inv(s, now) && Coherent(s)
    requires Pending(cfg, s, exits, now)
    ensures inv(CloseAll(cfg, exec, s, exits, now), now) && Coherent(CloseAll(cfg, exec, s, exits, now))
    decreases |exits|
  {
    if exits != [] {
      ByMove(cfg, exec, inv, timed, s, now, Selling(exits[0], now, Sweep));
      CloseKeepsPending(cfg, exec, s, exits, now);
      CloseAllKeeps(cfg, exec, inv, timed, ClosePosition(cfg, exec, s, exits[0], now, Sweep),
                    exits[1..], now);
    }
  }

  lemma HandleKeeps(cfg: Config, exec: Executor, inv: Property, timed: bool, s: State, ev: Event)
    requires cfg.Valid()
    requires Inductive(cfg, exec, inv, timed) && inv(s, ev.Ts()) && Coherent(s)
    ensures inv(Handle(cfg, exec, s, ev), ev.Ts()) && Coherent(Handle(cfg, exec, s, ev))
  {
    match ev
    case LaunchEvent(l) => LaunchKeeps(cfg, exec, inv, timed, s, l);
    case PriceEvent(pu) => PriceKeeps(cfg, exec, inv, timed, s, pu);
  }

  lemma SweepKeeps(cfg: Config, exec: Executor, inv: Property, timed: bool,
                   s: State, order: seq<Mint>, now: Time)
    requires Inductive(cfg, exec, inv, timed) && inv(s, now) && Coherent(s)
    requires Distinct(order)
    ensures inv(SweepTimeStops(cfg, exec, s, order, now), now)
    ensures Coherent(SweepTimeStops(cfg, exec, s, order, now))
  {
    CollectedArePending(cfg, s, order, now);
    CloseAllKeeps(cfg, exec, inv, timed, s, Collect(cfg, s.positions, order, now), now);
  }

  lemma HandleKeepsCoherent(cfg: Config, exec: Executor, s: State, ev: Event)
    requires cfg.Valid() && Coherent(s)
    ensures Coherent(Handle(cfg, exec, s, ev))
  {
    HandleKeeps(cfg, exec, (_, _) => true, false, s, ev);
  }

  lemma SweepKeepsCoherent(cfg: Config, exec: Executor, s: State, order: seq<Mint>, now: Time)
    requires Coherent(s) && Distinct(order)
    ensures Coherent(SweepTimeStops(cfg, exec, s, order, now))
  {
    SweepKeeps(cfg, exec, (_, _) => true, false, s, order, now);
  }

  lemma TimeKeeps(cfg: Config, exec: Executor, inv: Property, timed: bool, s: State,
      t: Time, u: Time)
    requires Inductive(cfg, exec, inv, timed) && inv(s, t) && (timed ==> t <= u)
    ensures inv(s, u)
  {}

  /** An inductive property survives any event, whatever the sweep order and the replies. */
  lemma EventKeeps(cfg: Config, exec: Executor, inv: Property, timed: bool,
                   s: State, t: Time, step: Step)
    requires cfg.Valid()
    requires Inductive(cfg, exec, inv, timed) && inv(s, t) && Coherent(s)
    requires (timed ==> t <= step.ev.Ts()) && Legal(cfg, exec, s, step)
    ensures inv(OnEvent(cfg, exec, s, step), step.ev.Ts()) && Coherent(OnEvent(cfg, exec, s, step))
  {
    TimeKeeps(cfg, exec, inv, timed, s, t, step.ev.Ts());
    HandleKeeps(cfg, exec, inv, timed, s, step.ev);
    SweepKeeps(cfg, exec, inv, timed, Handle(cfg, exec, s, step.ev), step.order, step.ev.Ts());
  }

  function LastTs(start: Time, steps: seq<Step>): Time {
    if steps == [] then start else steps[|steps| - 1].ev.Ts()
  }

  /** An inductive property that holds at the start holds after every legal run. */
  lemma {:induction false} RunKeeps(cfg: Config, exec: Executor, inv: Property, timed: bool,
                                    s: State, start: Time, steps: seq<Step>)
    requires cfg.Valid()
    requires Inductive(cfg, exec, inv, timed) && inv(s, start) && Coherent(s)
    requires LegalRun(cfg, exec, s, steps) && (timed ==> Chronological(start, steps))
    ensures inv(Run(cfg, exec, s, steps), LastTs(start, steps))
    ensures Coherent(Run(cfg, exec, s, steps))
    decreases |steps|
  {
    if steps != [] {
      var front := steps[..|steps| - 1];
      RunKeeps(cfg, exec, inv, timed, s, start, front);
      EventKeeps(cfg, exec, inv, timed, Run(cfg, exec, s, front), LastTs(start, front),
                 steps[|steps| - 1]);
    }
  }

  lemma RunIsCoherent(cfg: Config, exec: Executor, boot: Time, steps: seq<Step>)
    requires cfg.Valid() && LegalRun(cfg, exec, Initial(cfg, boot), steps)
    ensures Coherent(Run(cfg, exec, Initial(cfg, boot), steps))
  {
    RunKeeps(cfg, exec, (_, _) => true, false, Initial(cfg, boot), boot, steps);
  }
}
