/** Exit completeness: what cannot still be open after an event, and that no control can
    interfere with an exit. */
module Exits {
  import opened Domain
  import opened Risk
  import opened Machine
  import opened Moves
  import opened Lifetime
  import SellRules
  import Strategy

  predicate IsFailedSellOf(e: Entry, m: Mint) { IsFailedSell(e) && e.order.mint == m }

  /** A sell of `m` failed between the two states. */
  ghost predicate SellFailed(s: State, s': State, m: Mint) {
    exists i :: |s.tape| <= i < |s'.tape| && IsFailedSellOf(s'.tape[i], m)
  }

  ghost predicate Listed(exits: seq<Exit>, m: Mint) {
    exists i :: 0 <= i < |exits| && exits[i].mint == m
  }

  lemma CloseExtends(cfg: Config, exec: Executor, s: State, x: Exit, now: Time, cause: Cause)
    ensures var s' := ClosePosition(cfg, exec, s, x, now, cause);
      && s.tape <= s'.tape && |s'.tape| == |s.tape| + 1
      && (forall m :: m != x.mint && m in s.positions ==> m in s'.positions && s'.positions[m] == s.positions[m])
      && (x.mint in s'.positions ==> IsFailedSellOf(s'.tape[|s.tape|], x.mint))
      && s'.positions.Keys <= s.positions.Keys
  {
    hide TradeOf, RecordPnl, CountFailure;
  }

  /** Tokens not listed for exit are untouched; a listed token that is still open failed to sell. */
  lemma {:induction false} CloseAllEffect(cfg: Config, exec: Executor, s: State, exits: seq<Exit>,
      now: Time, m: Mint)
    ensures var s' := CloseAll(cfg, exec, s, exits, now);
      && s.tape <= s'.tape
      && s'.positions.Keys <= s.positions.Keys
      && (m in s.positions && !Listed(exits, m) ==> m in s'.positions && s'.positions[m] == s.positions[m])
      && (m in s'.positions && Listed(exits, m) ==> SellFailed(s, s', m))
    decreases |exits|
  {
    hide ClosePosition;
    if exits != [] {
      var s1 := ClosePosition(cfg, exec, s, exits[0], now, Sweep);
      var s' := CloseAll(cfg, exec, s1, exits[1..], now);
      CloseExtends(cfg, exec, s, exits[0], now, Sweep);
      CloseAllEffect(cfg, exec, s1, exits[1..], now, m);
      ListedSplits(exits, m);
      if m in s'.positions && Listed(exits, m) {
        if exits[0].mint == m {
          assert s'.tape[|s.tape|] == s1.tape[|s.tape|];
          assert IsFailedSellOf(s'.tape[|s.tape|], m);
        } else {
          var i :| |s1.tape| <= i < |s'.tape| && IsFailedSellOf(s'.tape[i], m);
        }
      }
    }
  }

  lemma ListedSplits(exits: seq<Exit>, m: Mint)
    requires exits != []
    ensures Listed(exits, m) <==> exits[0].mint == m || Listed(exits[1..], m)
  {
    if i :| 0 <= i < |exits| && exits[i].mint == m {
      assert i > 0 ==> exits[1..][i - 1].mint == m;
    }
    if i :| 0 <= i < |exits[1..]| && exits[1..][i].mint == m {
      assert exits[i + 1].mint == m;
    }
  }

  /** The sweep lists exactly the expired positions. */
  lemma {:induction false} CollectsExpired(cfg: Config, book: map<Mint, Position>, order: seq<Mint>,
      now: Time, m: Mint)
    requires forall k :: k in book ==> book[k].mint == k
    ensures Listed(Collect(cfg, book, order, now), m) <==>
      m in order && m in book && Expired(cfg, book[m], now).Some?
  {
    hide Expired;
    if order != [] {
      var front, last := order[..|order| - 1], order[|order| - 1];
      CollectsExpired(cfg, book, front, now, m);
      assert m in order <==> m in front || m == last;
      var exits, before := Collect(cfg, book, order, now), Collect(cfg, book, front, now);
      if last in book && Expired(cfg, book[last], now).Some? {
        assert exits[|before|].mint == last;
        if i :| 0 <= i < |before| && before[i].mint == m {
          assert exits[i].mint == m;
        }
        if i :| 0 <= i < |exits| && exits[i].mint == m {
          assert i < |before| ==> before[i].mint == m;
        }
      }
    }
  }

  lemma HandleExtends(cfg: Config, exec: Executor, s: State, ev: Event)
    requires cfg.Valid()
    ensures s.tape <= Handle(cfg, exec, s, ev).tape
  {
    hide SendSlices, ClosePosition, Ruled, Settle, Strategy.PositionBudget;
    match ev
    case LaunchEvent(l) =>
      var settled := s.WithRisk(Settle(s.controls.state, l.createdAt));
      var budget := Strategy.PositionBudget(cfg, s.equity, s.deployed);
      SlicesExtend(cfg, exec, settled, l, Strategy.SplitIntoSlices(budget, cfg.funnelSlices));
    case PriceEvent(pu) =>
      if pu.mint in s.positions {
        var (p, exit) := Ruled(cfg, s.positions[pu.mint], pu);
        if exit.Some? {
          CloseExtends(cfg, exec, ObserveTick(cfg, s, pu),
                       ExitAt(p, pu.priceUsd, pu.liquidityUsd, exit.value), pu.ts, OnTick);
        }
      }
  }

  lemma {:induction false} SlicesExtend(cfg: Config, exec: Executor, s: State, l: Launch, slices: seq<real>)
    ensures s.tape <= SendSlices(cfg, exec, s, l, slices).tape
    decreases |slices|
  {
    hide AddFill, Settle, Opened;
    if slices != [] {
      SlicesExtend(cfg, exec, TrySlice(cfg, exec, s, l, slices[0]).0, l, slices[1..]);
    }
  }

  /** An event only adds to the history. */
  lemma EventExtends(cfg: Config, exec: Executor, s: State, step: Step)
    requires cfg.Valid()
    ensures s.tape <= OnEvent(cfg, exec, s, step).tape
  {
    hide Handle, CloseAll, Collect;
    var handled := Handle(cfg, exec, s, step.ev);
    HandleExtends(cfg, exec, s, step.ev);
    CloseAllEffect(cfg, exec, handled, Collect(cfg, handled.positions, step.order, step.ev.Ts()), step.ev.Ts(), "");
  }

  /** Time exits are complete. After any event at time `now`, from any coherent state and under
      any controls, every position still open is within its time limit, is stuck, or had a sell
      fail during this very event. */
  lemma NoPositionOutlivesItsLimit(cfg: Config, exec: Executor, s: State, step: Step, m: Mint)
    requires cfg.Valid() && Coherent(s) && Legal(cfg, exec, s, step)
    ensures var s' := OnEvent(cfg, exec, s, step);
      m in s'.positions ==>
        || step.ev.Ts() - s'.positions[m].openedAt < SellRules.HoldLimitSecs(cfg, s'.positions[m].mode) * 1_000_000_000
        || s'.positions[m].stuck
        || SellFailed(s, s', m)
  {
    hide Handle, CloseAll, Strategy.OnTime;
    var now := step.ev.Ts();
    var handled := Handle(cfg, exec, s, step.ev);
    HandleKeepsCoherent(cfg, exec, s, step.ev);
    HandleExtends(cfg, exec, s, step.ev);
    var exits := Collect(cfg, handled.positions, step.order, now);
    CloseAllEffect(cfg, exec, handled, exits, now, m);
    CollectsExpired(cfg, handled.positions, step.order, now, m);
    var s' := OnEvent(cfg, exec, s, step);
    if m in s'.positions {
      SellRules.TimeRule(cfg, s'.positions[m], now);
    }
    if Listed(exits, m) && m in s'.positions {
      var i :| |handled.tape| <= i < |s'.tape| && IsFailedSellOf(s'.tape[i], m);
      assert |s.tape| <= i;
    }
  }

  /** A position the price rules leave alone at this price: just promoted, or strictly between its
      stop and its take-profit, or above its trail. */
  predicate Comfortable(cfg: Config, before: Position, after: Position, price: real) {
    match after.mode
    case Flip =>
      && SellRules.Gain(after, price) < cfg.takeProfitPct
      && SellRules.Gain(after, price) < cfg.convictionMinPct
      && price > after.highWater * (1.0 - cfg.stopLossPct / 100.0)
    case Conviction =>
      if before.mode == Flip then SellRules.Gain(after, price) >= cfg.convictionMinPct
      else price > after.highWater * (1.0 - cfg.trailPct / 100.0)
  }

  lemma RulesLeaveComfortable(cfg: Config, p: Position, pu: PriceUpdate)
    ensures var (q, exit) := Ruled(cfg, p, pu);
      exit.None? ==> Comfortable(cfg, p, q, pu.priceUsd)
  {}

  /** Price exits are complete. After a tick of a held token, either the token was sold, or a sell
      of it failed during the event, or its position is comfortable at that price, whatever the
      kill switch, the loss latch and the throttle say. */
  lemma NoTickIsIgnored(cfg: Config, exec: Executor, s: State, step: Step)
    requires cfg.Valid() && Coherent(s) && Legal(cfg, exec, s, step)
    requires step.ev.PriceEvent? && step.ev.price.mint in s.positions
    ensures var s' := OnEvent(cfg, exec, s, step);
      var pu := step.ev.price;
      || pu.mint !in s'.positions
      || SellFailed(s, s', pu.mint)
      || Comfortable(cfg, s.positions[pu.mint], s'.positions[pu.mint], pu.priceUsd)
  {
    hide CloseAll, Ruled, ClosePosition, Comfortable, Strategy.OnTime;
    var pu := step.ev.price;
    var m := pu.mint;
    var observed := ObserveTick(cfg, s, pu);
    var (q, exit) := Ruled(cfg, s.positions[m], pu);
    var handled := Handle(cfg, exec, s, step.ev);
    var exits := Collect(cfg, handled.positions, step.order, pu.ts);
    var s' := OnEvent(cfg, exec, s, step);
    CloseAllEffect(cfg, exec, handled, exits, pu.ts, m);
    if m in s'.positions {
      match exit {
        case Some(reason) =>
          CloseExtends(cfg, exec, observed, ExitAt(q, pu.priceUsd, pu.liquidityUsd, reason), pu.ts, OnTick);
          TickTouches(cfg, s.positions[m], pu);
          assert IsFailedSellOf(s'.tape[|observed.tape|], m);
        case None =>
          RulesLeaveComfortable(cfg, s.positions[m], pu);
          if Listed(exits, m) {
            var i :| |handled.tape| <= i < |s'.tape| && IsFailedSellOf(s'.tape[i], m);
          }
      }
    }
  }

  // ---- Controls cannot interfere with exits ----

  /** Equal in everything but the breaker and throttle state. */
  ghost predicate SameBook(a: State, b: State) {
    b == a.WithRisk(b.controls.state)
  }

  lemma CloseIgnoresControls(cfg: Config, exec: Executor, a: State, b: State,
      x: Exit, now: Time, cause: Cause)
    requires SameBook(a, b)
    ensures SameBook(ClosePosition(cfg, exec, a, x, now, cause), ClosePosition(cfg, exec, b, x, now, cause))
  {
    hide TradeOf, RecordPnl, CountFailure;
  }

  lemma {:induction false} CloseAllIgnoresControls(cfg: Config, exec: Executor, a: State, b: State,
      exits: seq<Exit>, now: Time)
    requires SameBook(a, b)
    ensures SameBook(CloseAll(cfg, exec, a, exits, now), CloseAll(cfg, exec, b, exits, now))
    decreases |exits|
  {
    hide ClosePosition;
    if exits != [] {
      CloseIgnoresControls(cfg, exec, a, b, exits[0], now, Sweep);
      CloseAllIgnoresControls(cfg, exec, ClosePosition(cfg, exec, a, exits[0], now, Sweep),
                              ClosePosition(cfg, exec, b, exits[0], now, Sweep), exits[1..], now);
    }
  }

  /** Sells are never blocked: two engines that differ only in breaker and throttle state (any
      kill switch, any latch, any number of recent orders) answer a price event with the same
      orders, the same book and the same money. */
  lemma ControlsNeverBlockExits(cfg: Config, exec: Executor, a: State, b: State, step: Step)
    requires cfg.Valid() && SameBook(a, b) && step.ev.PriceEvent?
    ensures SameBook(OnEvent(cfg, exec, a, step), OnEvent(cfg, exec, b, step))
  {
    hide ClosePosition, CloseAll, Ruled;
    var pu := step.ev.price;
    if pu.mint in a.positions {
      var oa, ob := ObserveTick(cfg, a, pu), ObserveTick(cfg, b, pu);
      assert SameBook(oa, ob);
      var (q, exit) := Ruled(cfg, a.positions[pu.mint], pu);
      if exit.Some? {
        CloseIgnoresControls(cfg, exec, oa, ob,
                             ExitAt(q, pu.priceUsd, pu.liquidityUsd, exit.value), pu.ts, OnTick);
      }
    }
    var ha, hb := Handle(cfg, exec, a, step.ev), Handle(cfg, exec, b, step.ev);
    CloseAllIgnoresControls(cfg, exec, ha, hb, Collect(cfg, ha.positions, step.order, pu.ts), pu.ts);
  }
}
