/** The daily-loss breaker: what its state means, and what it and the kill switch prevent. */
module Breaker {
  import opened Domain
  import opened Risk
  import opened Machine
  import opened Moves
  import Strategy

  /** Realized P&L of the trades closed on a day. */
  function DaySum(closed: seq<ClosedTrade>, day: int): real {
    if closed == [] then 0.0
    else
      var c := closed[|closed| - 1];
      DaySum(closed[..|closed| - 1], day) + if DayOf(c.closedAt) == day then c.pnlUsd else 0.0
  }

  /** Right after its `k`-th trade closed, on that day, the day's sum was at or below the limit. */
  predicate HitAt(cfg: Config, closed: seq<ClosedTrade>, day: int, k: nat) {
    && 0 < k <= |closed|
    && DayOf(closed[k - 1].closedAt) == day
    && DaySum(closed[..k], day) <= LossLimit(cfg)
  }

  ghost predicate LimitWasHit(cfg: Config, closed: seq<ClosedTrade>, day: int) {
    exists k :: HitAt(cfg, closed, day, k)
  }

  ghost predicate DayBooked(cfg: Config, closed: seq<ClosedTrade>, r: RiskState, t: Time) {
    && (closed != [] ==> r.day <= DayOf(t))
    && (forall c :: c in closed ==> DayOf(c.closedAt) <= r.day)
    && r.dayRealizedPnl == DaySum(closed, r.day)
    && (r.dailyLossTripped <==> LimitWasHit(cfg, closed, r.day))
  }

  lemma {:induction false} NothingThatDay(closed: seq<ClosedTrade>, day: int)
    requires forall c :: c in closed ==> DayOf(c.closedAt) != day
    ensures DaySum(closed, day) == 0.0
  {
    if closed != [] {
      NothingThatDay(closed[..|closed| - 1], day);
    }
  }

  lemma RolloverKeepsBooked(cfg: Config, closed: seq<ClosedTrade>, r: RiskState,
      t: Time, now: Time)
    requires DayBooked(cfg, closed, r, t) && t <= now
    ensures DayBooked(cfg, closed, Rollover(r, now), now)
  {
    hide LossLimit;
    DayMonotone(t, now);
    if DayOf(now) != r.day {
      NothingThatDay(closed, DayOf(now));
      forall k: nat ensures !HitAt(cfg, closed, DayOf(now), k) {
        assert 0 < k <= |closed| ==> closed[k - 1] in closed;
      }
    }
  }

  lemma RecordKeepsBooked(cfg: Config, closed: seq<ClosedTrade>, r: RiskState,
      c: ClosedTrade, now: Time)
    requires DayBooked(cfg, closed, r, now) && c.closedAt == now
    ensures DayBooked(cfg, closed + [c], RecordPnl(cfg, r, c.pnlUsd, now), now)
  {
    hide LossLimit;
    RolloverKeepsBooked(cfg, closed, r, now, now);
    var day := DayOf(now);
    var all := closed + [c];
    assert all[..|closed|] == closed && all[..|all|] == all;
    forall k | 0 <= k <= |closed| ensures all[..k] == closed[..k] {}
    forall k ensures HitAt(cfg, all, day, k) <==>
      HitAt(cfg, closed, day, k) || (k == |all| && DaySum(all, day) <= LossLimit(cfg)) {}
    if LimitWasHit(cfg, closed, day) {
      var k :| HitAt(cfg, closed, day, k);
      assert HitAt(cfg, all, day, k);
    }
    if DaySum(all, day) <= LossLimit(cfg) {
      assert HitAt(cfg, all, day, |all|);
    }
  }

  ghost predicate Booked(cfg: Config, s: State, t: Time) {
    DayBooked(cfg, s.closed, s.controls.state, t)
  }

  lemma MoveKeepsBooked(cfg: Config, exec: Executor, s: State, t: Time, mv: Move)
    requires Booked(cfg, s, t) && t <= mv.Now() && Enabled(cfg, s, mv)
    ensures Booked(cfg, Apply(cfg, exec, s, mv), mv.Now())
  {
    hide DayBooked, TradeOf, Ruled, AddFill, LossLimit, CountFailure;
    var r := s.controls.state;
    IgnoresOrders(cfg, s.closed, mv.Now());
    match mv
    case Settling(now) => RolloverKeepsBooked(cfg, s.closed, r, t, now);
    case Slicing(l, _) => RolloverKeepsBooked(cfg, s.closed, r, t, l.createdAt);
    case Ticking(pu) => TimeKeepsBooked(cfg, s.closed, r, t, pu.ts);
    case Selling(x, now, cause) =>
      TimeKeepsBooked(cfg, s.closed, r, t, now);
      var reply := exec(ExitOrder(s.orderSeq + 1, x, now));
      if reply.Filled? {
        TradeDated(x, reply.fill, now);
        RecordKeepsBooked(cfg, s.closed, PushOrder(r, now), TradeOf(x, reply.fill, now), now);
      }
  }

  lemma TradeDated(x: Exit, f: Fill, now: Time)
    ensures TradeOf(x, f, now).closedAt == now
  {}

  lemma TimeKeepsBooked(cfg: Config, closed: seq<ClosedTrade>, r: RiskState, t: Time, u: Time)
    requires DayBooked(cfg, closed, r, t) && t <= u
    ensures DayBooked(cfg, closed, r, u)
  {
    DayMonotone(t, u);
  }

  lemma IgnoresOrders(cfg: Config, closed: seq<ClosedTrade>, t: Time)
    ensures forall r: RiskState, orders: seq<Time> {:trigger r.(recentOrders := orders)} ::
      DayBooked(cfg, closed, r, t) ==> DayBooked(cfg, closed, r.(recentOrders := orders), t)
  {}

  lemma BookedIsInductive(cfg: Config, exec: Executor)
    ensures Inductive(cfg, exec, (s, t) => Booked(cfg, s, t), true)
  {
    forall s: State, t: Time, mv: Move {:trigger Booked(cfg, s, t), Enabled(cfg, s, mv)} |
      Booked(cfg, s, t) && Coherent(s) && t <= mv.Now() && Enabled(cfg, s, mv)
      ensures Booked(cfg, Apply(cfg, exec, s, mv), mv.Now())
    {
      MoveKeepsBooked(cfg, exec, s, t, mv);
    }
    forall s: State, t: Time, u: Time | Booked(cfg, s, t) && t <= u
      ensures Booked(cfg, s, u)
    {
      TimeKeepsBooked(cfg, s.closed, s.controls.state, t, u);
    }
  }

  /** Breaker characterization. Over a legal run with nondecreasing event times, the day counter
      is exactly the P&L of the trades closed on the current control day, and the breaker is
      latched exactly if some trade of that day brought the day's sum to the limit or below. */
  lemma BreakerMeansDayLoss(cfg: Config, exec: Executor, boot: Time, start: Time,
      steps: seq<Step>)
    requires cfg.Valid() && LegalRun(cfg, exec, Initial(cfg, boot), steps)
    requires Chronological(start, steps)
    ensures var s := Run(cfg, exec, Initial(cfg, boot), steps);
      var r := s.controls.state;
      && r.dayRealizedPnl == DaySum(s.closed, r.day)
      && (r.dailyLossTripped <==> LimitWasHit(cfg, s.closed, r.day))
  {
    BookedIsInductive(cfg, exec);
    var inv := (s: State, t: Time) => Booked(cfg, s, t);
    var s0 := Initial(cfg, boot);
    assert forall k :: !HitAt(cfg, s0.closed, s0.controls.state.day, k);
    assert inv(s0, start);
    RunKeeps(cfg, exec, inv, true, s0, start, steps);
    assert inv(Run(cfg, exec, s0, steps), LastTs(start, steps));
  }

  // ---- What an engaged breaker prevents ----

  /** A breaker that is engaged at `now`: the kill switch, or the loss latch of that same day. */
  predicate Engaged(r: RiskState, now: Time) {
    r.kill || (r.dailyLossTripped && r.day == DayOf(now))
  }

  /** Nothing was bought between the two tapes, and nothing was opened. */
  ghost predicate OnlyShrank(s: State, s': State) {
    && s.tape <= s'.tape
    && (forall i :: |s.tape| <= i < |s'.tape| ==> !IsBuy(s'.tape[i]))
    && s'.positions.Keys <= s.positions.Keys
  }

  lemma CloseShrinks(cfg: Config, exec: Executor, s: State, x: Exit, now: Time, cause: Cause)
    requires Engaged(s.controls.state, now)
    ensures var s' := ClosePosition(cfg, exec, s, x, now, cause);
      OnlyShrank(s, s') && Engaged(s'.controls.state, now)
  {
    hide TradeOf, LossLimit, CountFailure;
  }

  lemma ShrinkTwice(a: State, b: State, c: State)
    requires OnlyShrank(a, b) && OnlyShrank(b, c)
    ensures OnlyShrank(a, c)
  {}

  lemma {:induction false} CloseAllShrinks(cfg: Config, exec: Executor, s: State, exits: seq<Exit>, now: Time)
    requires Engaged(s.controls.state, now)
    ensures var s' := CloseAll(cfg, exec, s, exits, now);
      OnlyShrank(s, s') && Engaged(s'.controls.state, now)
    decreases |exits|
  {
    hide ClosePosition, Engaged;
    if exits != [] {
      var s' := ClosePosition(cfg, exec, s, exits[0], now, Sweep);
      CloseShrinks(cfg, exec, s, exits[0], now, Sweep);
      CloseAllShrinks(cfg, exec, s', exits[1..], now);
      ShrinkTwice(s, s', CloseAll(cfg, exec, s', exits[1..], now));
    }
  }

  lemma HandleShrinks(cfg: Config, exec: Executor, s: State, ev: Event)
    requires cfg.Valid() && Engaged(s.controls.state, ev.Ts())
    ensures var s' := Handle(cfg, exec, s, ev);
      OnlyShrank(s, s') && Engaged(s'.controls.state, ev.Ts())
  {
    match ev
    case LaunchEvent(l) => LaunchShrinks(cfg, exec, s, l);
    case PriceEvent(pu) => PriceShrinks(cfg, exec, s, pu);
  }

  lemma LaunchShrinks(cfg: Config, exec: Executor, s: State, l: Launch)
    requires cfg.Valid() && Engaged(s.controls.state, l.createdAt)
    ensures var s' := OnLaunch(cfg, exec, s, l);
      OnlyShrank(s, s') && Engaged(s'.controls.state, l.createdAt)
  {
    hide Strategy.PositionBudget, LossLimit, SendSlices, Prune;
  }

  lemma PriceShrinks(cfg: Config, exec: Executor, s: State, pu: PriceUpdate)
    requires Engaged(s.controls.state, pu.ts)
    ensures var s' := OnPriceUpdate(cfg, exec, s, pu);
      OnlyShrank(s, s') && Engaged(s'.controls.state, pu.ts)
  {
    hide Ruled, ClosePosition;
    if pu.mint in s.positions {
      var observed := ObserveTick(cfg, s, pu);
      assert OnlyShrank(s, observed) && Engaged(observed.controls.state, pu.ts);
      var (p, exit) := Ruled(cfg, s.positions[pu.mint], pu);
      if exit.Some? {
        var x := ExitAt(p, pu.priceUsd, pu.liquidityUsd, exit.value);
        CloseShrinks(cfg, exec, observed, x, pu.ts, OnTick);
        ShrinkTwice(s, observed, ClosePosition(cfg, exec, observed, x, pu.ts, OnTick));
      }
    }
  }

  lemma EventShrinks(cfg: Config, exec: Executor, s: State, step: Step)
    requires cfg.Valid() && Engaged(s.controls.state, step.ev.Ts())
    ensures var s' := OnEvent(cfg, exec, s, step);
      OnlyShrank(s, s') && Engaged(s'.controls.state, step.ev.Ts())
  {
    hide Engaged, OnlyShrank, Handle, CloseAll;
    var handled := Handle(cfg, exec, s, step.ev);
    HandleShrinks(cfg, exec, s, step.ev);
    var exits := Collect(cfg, handled.positions, step.order, step.ev.Ts());
    CloseAllShrinks(cfg, exec, handled, exits, step.ev.Ts());
    ShrinkTwice(s, handled, CloseAll(cfg, exec, handled, exits, step.ev.Ts()));
  }

  /** Once a breaker is engaged, no run of events it covers (any events for the kill switch, the
      events of the same day for the loss latch) submits a buy or opens a position, and it stays
      engaged throughout; exits go on. */
  lemma {:induction false} EngagedBreakerStopsEntries(cfg: Config, exec: Executor, s: State, t: Time,
      steps: seq<Step>)
    requires cfg.Valid() && Engaged(s.controls.state, t)
    requires s.controls.state.kill || forall i :: 0 <= i < |steps| ==> DayOf(steps[i].ev.Ts()) == DayOf(t)
    ensures var s' := Run(cfg, exec, s, steps);
      && OnlyShrank(s, s')
      && Engaged(s'.controls.state, t)
      && (s.controls.state.kill ==> s'.controls.state.kill)
    decreases |steps|
  {
    if steps != [] {
      var front, last := steps[..|steps| - 1], steps[|steps| - 1];
      EngagedBreakerStopsEntries(cfg, exec, s, t, front);
      var s1 := Run(cfg, exec, s, front);
      EventShrinks(cfg, exec, s1, last);
      if s.controls.state.kill {
        KillPersists(cfg, exec, s1, last);
      }
      ShrinkTwice(s, s1, OnEvent(cfg, exec, s1, last));
    }
  }

  lemma KillPersists(cfg: Config, exec: Executor, s: State, step: Step)
    requires cfg.Valid() && s.controls.state.kill
    ensures OnEvent(cfg, exec, s, step).controls.state.kill
  {
    hide CloseAll, Strategy.PositionBudget, LossLimit, SendSlices, Prune, Ruled, TradeOf, CountFailure;
    var handled := Handle(cfg, exec, s, step.ev);
    assert handled.controls.state.kill;
    CloseAllKeepsKill(cfg, exec, handled, Collect(cfg, handled.positions, step.order, step.ev.Ts()), step.ev.Ts());
  }

  lemma {:induction false} CloseAllKeepsKill(cfg: Config, exec: Executor, s: State, exits: seq<Exit>, now: Time)
    requires s.controls.state.kill
    ensures CloseAll(cfg, exec, s, exits, now).controls.state.kill
    decreases |exits|
  {
    hide TradeOf, LossLimit, CountFailure;
    if exits != [] {
      CloseAllKeepsKill(cfg, exec, ClosePosition(cfg, exec, s, exits[0], now, Sweep), exits[1..], now);
    }
  }
}
