/** When the engine sells, in terms of prices and times: which positions a tick or a sweep sells, for
    what reason and at which marks. The rules are written out over the fields of a position. */
module SellRules {
  import opened Domain
  import opened Machine
  import opened Moves
  import opened Lifetime
  import opened Execution
  import Risk
  import Strategy

  // ---- The rules ----

  function HoldLimitSecs(cfg: Config, mode: HoldMode): nat {
    match mode
    case Flip => cfg.maxHoldSecs
    case Conviction => cfg.convictionMaxHoldSecs
  }

  /** The position has been open for its time limit. Elapsed time is truncated to whole seconds toward
      zero, so a limit of zero is reached up to a second early. */
  predicate PastLimit(cfg: Config, p: Position, now: Time) {
    var limit := HoldLimitSecs(cfg, p.mode) * 1_000_000_000;
    now - p.openedAt >= limit || (limit == 0 && now - p.openedAt > -1_000_000_000)
  }

  /** The gain over the entry price in percent. */
  function Gain(p: Position, price: real): real {
    if p.entryPrice == 0.0 then 0.0 else (price - p.entryPrice) / p.entryPrice * 100.0
  }

  /** The price is `pct` percent or more below the high-water mark. */
  predicate FellBy(p: Position, price: real, pct: real) { price <= p.highWater * (1.0 - pct / 100.0) }

  /** The reason a position, with its marks brought up to `price`, may be sold for. */
  predicate SoldFor(cfg: Config, p: Position, price: real, now: Time, reason: string) {
    match p.mode
    case Flip =>
      || (reason == "take_profit" && Gain(p, price) >= cfg.takeProfitPct)
      || (reason == "stop_loss" && FellBy(p, price, cfg.stopLossPct))
      || (reason == "max_hold" && PastLimit(cfg, p, now))
    case Conviction =>
      || (reason == "trail_stop" && FellBy(p, price, cfg.trailPct))
      || (reason == "conviction_max_hold" && PastLimit(cfg, p, now))
  }

  /** A tick at `price` makes the engine sell a position that it finds as `p`. */
  predicate TickSells(cfg: Config, p: Position, price: real, now: Time) {
    var marked := p.(highWater := if price > p.highWater then price else p.highWater);
    match p.mode
    case Flip =>
      && Gain(p, price) < cfg.convictionMinPct
      && (Gain(p, price) >= cfg.takeProfitPct || FellBy(marked, price, cfg.stopLossPct) || PastLimit(cfg, p, now))
    case Conviction =>
      FellBy(marked, price, cfg.trailPct) || PastLimit(cfg, p, now)
  }

  // ---- The code applies them ----

  lemma TimeRule(cfg: Config, p: Position, now: Time)
    ensures Strategy.OnTime(cfg, p, now).Some? <==> PastLimit(cfg, p, now)
    ensures Strategy.OnTime(cfg, p, now).Some? ==>
      Strategy.OnTime(cfg, p, now).value == (if p.mode == Flip then "max_hold" else "conviction_max_hold")
    ensures NumSeconds(now - p.openedAt) >= HoldLimitSecs(cfg, p.mode) <==> PastLimit(cfg, p, now)
  {}

  lemma PriceRule(cfg: Config, p: Position, pu: PriceUpdate)
    ensures var (q, exit) := Ruled(cfg, p, pu);
      && (exit.Some? <==> TickSells(cfg, p, pu.priceUsd, pu.ts))
      && (exit.Some? ==> q.mode == p.mode && SoldFor(cfg, q, pu.priceUsd, pu.ts, exit.value))
      && q.lastPrice == pu.priceUsd && q.lastLiquidityUsd == pu.liquidityUsd
      && (q.mode == Conviction <==> p.mode == Conviction || Gain(p, pu.priceUsd) >= cfg.convictionMinPct)
  {
    TimeRule(cfg, p, pu.ts);
    var marked := p.(highWater := if pu.priceUsd > p.highWater then pu.priceUsd else p.highWater);
    TimeRule(cfg, marked, pu.ts);
    assert Gain(p, pu.priceUsd) == GainPct(p.entryPrice, pu.priceUsd);
  }

  // ---- What a tick sends ----

  function ExitTier(mode: HoldMode): TipTier { if mode == Flip then FlipExit else ConvictionExit }

  /** The marks and the mode of a position after a tick that does not sell it. */
  function Kept(cfg: Config, p: Position, pu: PriceUpdate): Position {
    p.(lastPrice := pu.priceUsd, lastLiquidityUsd := pu.liquidityUsd,
       highWater := if pu.priceUsd > p.highWater then pu.priceUsd else p.highWater,
       mode := if Gain(p, pu.priceUsd) >= cfg.convictionMinPct then Conviction else p.mode)
  }

  /** A tick of a held token sends one sell of the whole position at the tick's price and liquidity if
      the rules say so, and otherwise sends nothing and only updates marks and mode. */
  lemma TickSendsIff(cfg: Config, exec: Executor, s: State, pu: PriceUpdate)
    requires Coherent(s) && pu.mint in s.positions
    ensures var p, s' := s.positions[pu.mint], OnPriceUpdate(cfg, exec, s, pu);
      var seen := s.tape + [Ticked(pu.mint, pu.priceUsd, pu.liquidityUsd, pu.ts)];
      var order := SellOrder(s.orderSeq + 1, pu.mint, p.qty, pu.priceUsd, pu.liquidityUsd, pu.ts, ExitTier(p.mode));
      if TickSells(cfg, p, pu.priceUsd, pu.ts)
      then s'.tape == seen + [Traded(order, exec(order), OnTick)]
      else s'.tape == seen && s'.positions == s.positions[pu.mint := Kept(cfg, p, pu)]
  {
    hide Ruled, TradeOf, Risk.RecordPnl, CountFailure, TickSells, Gain;
    PriceRule(cfg, s.positions[pu.mint], pu);
    TickTouches(cfg, s.positions[pu.mint], pu);
  }

  // ---- What a sweep sends ----

  predicate IsDueAt(cfg: Config, book: map<Mint, Position>, m: Mint, now: Time) {
    m in book && !book[m].stuck && PastLimit(cfg, book[m], now)
  }

  /** The tokens of `order` whose positions are due, in order. */
  function DueMints(cfg: Config, book: map<Mint, Position>, order: seq<Mint>, now: Time): seq<Mint> {
    if order == [] then []
    else
      var front := DueMints(cfg, book, order[..|order| - 1], now);
      if IsDueAt(cfg, book, order[|order| - 1], now) then front + [order[|order| - 1]] else front
  }

  /** A sweep sell of a position at its last marks. */
  function SweepOrder(id: nat, p: Position, now: Time): Order {
    SellOrder(id, p.mint, p.qty, p.lastPrice, p.lastLiquidityUsd, now, ExitTier(p.mode))
  }

  ghost predicate Collected(cfg: Config, book: map<Mint, Position>, exits: seq<Exit>, due: seq<Mint>, now: Time) {
    && |exits| == |due|
    && forall i :: 0 <= i < |due| ==>
         IsDueAt(cfg, book, due[i], now) && ExitOrder(0, exits[i], now) == SweepOrder(0, book[due[i]], now)
  }

  lemma {:induction false} CollectIsDue(cfg: Config, book: map<Mint, Position>, order: seq<Mint>, now: Time)
    ensures Collected(cfg, book, Collect(cfg, book, order, now), DueMints(cfg, book, order, now), now)
  {
    hide PastLimit, Strategy.OnTime;
    if order != [] {
      var m := order[|order| - 1];
      CollectIsDue(cfg, book, order[..|order| - 1], now);
      if m in book {
        TimeRule(cfg, book[m], now);
      }
    }
  }

  lemma {:induction false} CloseAllSends(cfg: Config, exec: Executor, s: State, exits: seq<Exit>, now: Time)
    ensures var s' := CloseAll(cfg, exec, s, exits, now);
      && s.tape <= s'.tape && |s'.tape| == |s.tape| + |exits|
      && forall i :: 0 <= i < |exits| ==>
           var o := ExitOrder(s.orderSeq + 1 + i, exits[i], now);
           s'.tape[|s.tape| + i] == Traded(o, exec(o), Sweep)
    decreases |exits|
  {
    hide SettleSale, FailExit, ExitOrder;
    if exits != [] {
      var s1 := ClosePosition(cfg, exec, s, exits[0], now, Sweep);
      CloseSends(cfg, exec, s, exits[0], now);
      CloseAllSends(cfg, exec, s1, exits[1..], now);
      hide ClosePosition;
      var s' := CloseAll(cfg, exec, s1, exits[1..], now);
      forall i | 0 <= i < |exits|
        ensures var o := ExitOrder(s.orderSeq + 1 + i, exits[i], now);
          s'.tape[|s.tape| + i] == Traded(o, exec(o), Sweep)
      {
        if i > 0 {
          assert exits[1..][i - 1] == exits[i];
          assert s'.tape[|s1.tape| + (i - 1)] == s'.tape[|s.tape| + i];
        } else {
          assert s'.tape[|s.tape|] == s1.tape[|s.tape|];
        }
      }
    }
  }

  lemma CloseSends(cfg: Config, exec: Executor, s: State, x: Exit, now: Time)
    ensures var s', o := ClosePosition(cfg, exec, s, x, now, Sweep), ExitOrder(s.orderSeq + 1, x, now);
      s'.tape == s.tape + [Traded(o, exec(o), Sweep)] && s'.orderSeq == s.orderSeq + 1
  {
    hide TradeOf, Risk.RecordPnl, CountFailure;
  }

  /** A sweep sends exactly one sell for every open position that is not stuck and has reached its
      limit, at the price and liquidity last seen, and none for any other. */
  lemma SweepSendsTheDue(cfg: Config, exec: Executor, s: State, order: seq<Mint>, now: Time)
    requires Coherent(s) && Enumerates(order, s.positions.Keys)
    ensures var s', due := SweepTimeStops(cfg, exec, s, order, now), DueMints(cfg, s.positions, order, now);
      && s.tape <= s'.tape && |s'.tape| == |s.tape| + |due|
      && (forall i :: 0 <= i < |due| ==>
           && due[i] in s.positions
           && var o := SweepOrder(s.orderSeq + 1 + i, s.positions[due[i]], now);
              s'.tape[|s.tape| + i] == Traded(o, exec(o), Sweep))
      && Distinct(due)
      && (forall m :: m in due <==> m in s.positions && !s.positions[m].stuck && PastLimit(cfg, s.positions[m], now))
  {
    hide CloseAll, Collect, PastLimit;
    var exits := Collect(cfg, s.positions, order, now);
    CollectIsDue(cfg, s.positions, order, now);
    CloseAllSends(cfg, exec, s, exits, now);
    DueAreListed(cfg, s.positions, order, now);
    var due := DueMints(cfg, s.positions, order, now);
    forall i | 0 <= i < |due|
      ensures ExitOrder(s.orderSeq + 1 + i, exits[i], now) == SweepOrder(s.orderSeq + 1 + i, s.positions[due[i]], now)
    {
      SameButId(exits[i], s.positions[due[i]], now, s.orderSeq + 1 + i);
    }
  }

  lemma SameButId(x: Exit, p: Position, now: Time, id: nat)
    requires ExitOrder(0, x, now) == SweepOrder(0, p, now)
    ensures ExitOrder(id, x, now) == SweepOrder(id, p, now)
  {}

  lemma {:induction false} DueAreListed(cfg: Config, book: map<Mint, Position>, order: seq<Mint>, now: Time)
    requires Distinct(order)
    ensures var due := DueMints(cfg, book, order, now);
      Distinct(due) && forall m :: m in due <==> m in order && IsDueAt(cfg, book, m, now)
  {
    hide IsDueAt;
    if order != [] {
      var front, last := order[..|order| - 1], order[|order| - 1];
      DueAreListed(cfg, book, front, now);
      assert forall m :: m in order <==> m in front || m == last;
    }
  }

  // ---- Every sell of a run was due ----

  /** The sell was for the position that `life` describes, all of it, at its last marks and tier; a sweep
      sell past its limit, a tick sell right after a tick at the order's price and for the rules. */
  ghost predicate SoldFrom(cfg: Config, life: seq<Entry>, p: Position, e: Entry)
    requires e.Traded? && e.order.SellOrder?
  {
    var o := e.order;
    && Tells(cfg, life, p)
    && o == SellOrder(o.id, o.mint, p.qty, p.lastPrice, p.lastLiquidityUsd, o.now, ExitTier(p.mode))
    && match e.cause
       case Funnel => false
       case Sweep => !p.stuck && PastLimit(cfg, p, o.now)
       case OnTick =>
         && life != [] && life[|life| - 1] == Ticked(o.mint, o.priceUsd, o.liquidityUsd, o.now)
         && TickSells(cfg, p, o.priceUsd, o.now)
  }

  ghost predicate SellDue(cfg: Config, life: seq<Entry>, e: Entry)
    requires e.Traded? && e.order.SellOrder?
  {
    exists p :: SoldFrom(cfg, life, p, e)
  }

  ghost predicate SellsDue(cfg: Config, tape: seq<Entry>) {
    forall k :: 0 <= k < |tape| && tape[k].Traded? && tape[k].order.SellOrder? ==>
      SellDue(cfg, LifeOf(tape[..k], tape[k].order.mint), tape[k])
  }

  lemma EntryKeepsDue(cfg: Config, tape: seq<Entry>, e: Entry)
    requires SellsDue(cfg, tape)
    requires e.Traded? && e.order.SellOrder? ==> SellDue(cfg, LifeOf(tape, e.order.mint), e)
    ensures SellsDue(cfg, tape + [e])
  {
    hide SellDue;
    var all := tape + [e];
    assert all[..|tape|] == tape;
    forall k | 0 <= k < |all| && all[k].Traded? && all[k].order.SellOrder?
      ensures SellDue(cfg, LifeOf(all[..k], all[k].order.mint), all[k])
    {
      if k < |tape| {
        assert all[..k] == tape[..k] && all[k] == tape[k];
      }
    }
  }

  lemma SellIsDue(cfg: Config, exec: Executor, s: State, x: Exit, now: Time, cause: Cause)
    requires Enabled(cfg, s, Selling(x, now, cause)) && LifeInv(cfg, x.mint, s) && Coherent(s)
    ensures var o := ExitOrder(s.orderSeq + 1, x, now);
      SellDue(cfg, LifeOf(s.tape, x.mint), Traded(o, exec(o), cause))
  {
    hide Tells, PastLimit, TickSells, Ruled, Strategy.OnTime;
    var p, o := s.positions[x.mint], ExitOrder(s.orderSeq + 1, x, now);
    TimeRule(cfg, p, now);
    if cause == OnTick {
      var before :| FiredFrom(cfg, before, p, x, now);
      PriceRule(cfg, before, PriceUpdate(x.mint, now, x.refPrice, x.liquidityUsd));
      FiredStillSells(cfg, before, p, x, now);
      TickEndsLife(s.tape, x.mint);
    }
    assert SoldFrom(cfg, LifeOf(s.tape, x.mint), p, Traded(o, exec(o), cause));
  }

  /** The rules that fired on the position before the tick still hold of it after. */
  lemma FiredStillSells(cfg: Config, before: Position, p: Position, x: Exit, now: Time)
    requires FiredFrom(cfg, before, p, x, now) && TickSells(cfg, before, x.refPrice, now)
    ensures TickSells(cfg, p, x.refPrice, now)
  {
    var pu := PriceUpdate(x.mint, now, x.refPrice, x.liquidityUsd);
    TickTouches(cfg, before, pu);
    PriceRule(cfg, before, pu);
    hide Ruled;
  }

  lemma TickEndsLife(tape: seq<Entry>, m: Mint)
    requires tape != [] && tape[|tape| - 1].Ticked? && tape[|tape| - 1].mint == m
    ensures LifeOf(tape, m) != [] && LifeOf(tape, m)[|LifeOf(tape, m)| - 1] == tape[|tape| - 1]
  {}

  ghost predicate DueInv(cfg: Config, s: State) { SellsDue(cfg, s.tape) && forall m :: LifeInv(cfg, m, s) }

  lemma MoveKeepsDue(cfg: Config, exec: Executor, s: State, mv: Move)
    requires cfg.Valid() && Faithful(exec) && DueInv(cfg, s) && Coherent(s) && Enabled(cfg, s, mv)
    ensures DueInv(cfg, Apply(cfg, exec, s, mv))
  {
    hide SellsDue, LifeInv, SellDue, AddFill, Ruled, Expired, CountFailure, TradeOf, Risk.RecordPnl, Risk.Settle,
      Risk.LossLimit, Coherent, Fired;
    forall m { MoveKeepsLife(cfg, exec, m, s, mv); }
    match mv
    case Settling(_) =>
    case Slicing(l, slice) =>
      var order := SliceOrder(cfg, s, l, slice);
      EntryKeepsDue(cfg, s.tape, Traded(order, exec(order), Funnel));
    case Ticking(pu) =>
      EntryKeepsDue(cfg, s.tape, Ticked(pu.mint, pu.priceUsd, pu.liquidityUsd, pu.ts));
    case Selling(x, now, cause) =>
      var order := ExitOrder(s.orderSeq + 1, x, now);
      SellIsDue(cfg, exec, s, x, now, cause);
      EntryKeepsDue(cfg, s.tape, Traded(order, exec(order), cause));
  }

  /** Nothing is sold without a reason. Every sell on the tape of a legal run was for the whole position
      its life describes, at the price and liquidity last seen; a sweep sell for a position past its
      limit, and a tick sell right after a tick of that token at or past its take-profit, stop, trail or
      limit. */
  lemma EverySellIsDue(cfg: Config, exec: Executor, boot: Time, steps: seq<Step>)
    requires cfg.Valid() && Faithful(exec) && LegalRun(cfg, exec, Initial(cfg, boot), steps)
    ensures SellsDue(cfg, Run(cfg, exec, Initial(cfg, boot), steps).tape)
  {
    hide SellsDue, LifeInv;
    forall s: State, mv: Move | DueInv(cfg, s) && Coherent(s) && Enabled(cfg, s, mv)
      ensures DueInv(cfg, Apply(cfg, exec, s, mv))
    {
      MoveKeepsDue(cfg, exec, s, mv);
    }
    var inv := (s: State, _: Time) => DueInv(cfg, s);
    assert inv(Initial(cfg, boot), boot) by { NothingSold(cfg, boot); }
    RunKeeps(cfg, exec, inv, false, Initial(cfg, boot), boot, steps);
    assert inv(Run(cfg, exec, Initial(cfg, boot), steps), LastTs(boot, steps));
  }

  lemma NothingSold(cfg: Config, boot: Time)
    ensures DueInv(cfg, Initial(cfg, boot))
  {}
}
