/** The trade log: every closed trade sums up one whole life of a position. */
module Trades {
  import opened Decimals
  import opened Domain
  import opened Machine
  import opened Moves
  import opened Lifetime
  import opened SellRules
  import Strategy
  import Execution

  /** A filled sell, with everything that happened to its token since it was bought. */
  datatype Sale = Sale(order: Order, fill: Fill, life: seq<Entry>)

  predicate IsSale(e: Entry) { e.Traded? && e.order.SellOrder? && e.reply.Filled? }

  /** The filled sells on a tape, in order. */
  function Sales(tape: seq<Entry>): seq<Sale> {
    if tape == [] then []
    else
      var front, e := tape[..|tape| - 1], tape[|tape| - 1];
      if IsSale(e) then Sales(front) + [Sale(e.order, e.reply.fill, LifeOf(front, e.order.mint))]
      else Sales(front)
  }

  /** The trade reports the sale, what the fills of its life cost and averaged, and whether the
      price ever broke out; and the sell order was for all that was bought, at the matching tier. */
  ghost predicate SumsUp(cfg: Config, t: ClosedTrade, sale: Sale) {
    var order, fill, fills := sale.order, sale.fill, Fills(sale.life);
    && order.SellOrder? && fills != []
    && t.mint == order.mint && t.openedAt == fill.ts && t.closedAt == order.now
    && t.exitPrice == fill.priceUsd && t.qty == fill.qty
    && t.costUsd == Cost(fills)
    && t.proceedsUsd == Round12(fill.notionalUsd - fill.feeUsd)
    && t.pnlUsd == t.proceedsUsd - t.costUsd
    && t.pnlPct == (if t.costUsd == 0.0 then 0.0 else Round12(t.pnlUsd / t.costUsd * 100.0))
    && order.qty == Qty(fills)
    && t.entryPrice * order.qty == Weighted(fills)
    && (t.mode == Conviction <==> BrokeOut(cfg, t.entryPrice, sale.life))
    && order.tier == ExitTier(t.mode)
    && Reasoned(cfg, sale, t.exitReason)
  }

  /** The reason given applied to the position sold, at the order's price and time. */
  ghost predicate Reasoned(cfg: Config, sale: Sale, reason: string) {
    exists p :: Tells(cfg, sale.life, p) && SoldFor(cfg, p, sale.order.priceUsd, sale.order.now, reason)
  }

  /** The log has one trade per filled sell, in order. */
  ghost predicate Logged(cfg: Config, s: State) {
    && |s.closed| == |Sales(s.tape)|
    && forall i :: 0 <= i < |s.closed| ==> SumsUp(cfg, s.closed[i], Sales(s.tape)[i])
  }

  lemma SalesSnoc(tape: seq<Entry>, e: Entry)
    ensures Sales(tape + [e]) ==
      Sales(tape) + if IsSale(e) then [Sale(e.order, e.reply.fill, LifeOf(tape, e.order.mint))] else []
  {
    assert (tape + [e])[..|tape|] == tape;
  }

  /** A position that is what its life says closes as a trade that sums that life up. */
  lemma PositionCloses(cfg: Config, life: seq<Entry>, p: Position, x: Exit, f: Fill,
      now: Time, id: nat)
    requires Tells(cfg, life, p) && Matches(x, p) && x.mint == p.mint
    requires SoldFor(cfg, p, x.refPrice, now, x.reason)
    ensures SumsUp(cfg, TradeOf(x, f, now), Sale(ExitOrder(id, x, now), f, life))
  {
    hide GainPct, SoldFor, Round12;
  }

  /** The exit of an enabled sale carries a reason that applies. */
  lemma ExitIsReasoned(cfg: Config, s: State, x: Exit, now: Time, cause: Cause)
    requires Enabled(cfg, s, Selling(x, now, cause))
    ensures SoldFor(cfg, s.positions[x.mint], x.refPrice, now, x.reason)
  {
    hide PastLimit, FellBy, Gain, Ruled, Strategy.OnTime;
    var p := s.positions[x.mint];
    TimeRule(cfg, p, now);
    if cause == OnTick {
      var before :| FiredFrom(cfg, before, p, x, now);
      PriceRule(cfg, before, PriceUpdate(x.mint, now, x.refPrice, x.liquidityUsd));
    }
  }

  lemma SellKeepsLogged(cfg: Config, exec: Executor, s: State, x: Exit, now: Time, cause: Cause)
    requires Logged(cfg, s) && Enabled(cfg, s, Selling(x, now, cause))
    requires LifeInv(cfg, x.mint, s)
    ensures Logged(cfg, ClosePosition(cfg, exec, s, x, now, cause))
  {
    hide SumsUp, TradeOf, Tells, Expired, SoldFor, Fired;
    var order := ExitOrder(s.orderSeq + 1, x, now);
    var reply := exec(order);
    SalesSnoc(s.tape, Traded(order, reply, cause));
    if reply.Filled? {
      ExitIsReasoned(cfg, s, x, now, cause);
      PositionCloses(cfg, LifeOf(s.tape, x.mint), s.positions[x.mint], x, reply.fill, now, s.orderSeq + 1);
    }
  }

  lemma MoveKeepsLogged(cfg: Config, exec: Executor, s: State, mv: Move)
    requires Logged(cfg, s) && Enabled(cfg, s, mv) && forall m :: LifeInv(cfg, m, s)
    ensures Logged(cfg, Apply(cfg, exec, s, mv))
  {
    hide SumsUp, LifeInv, AddFill, Ruled, Expired, ClosePosition, Fired;
    match mv
    case Settling(_) =>
    case Slicing(l, slice) =>
      var order := SliceOrder(cfg, s, l, slice);
      SalesSnoc(s.tape, Traded(order, exec(order), Funnel));
    case Ticking(pu) =>
      SalesSnoc(s.tape, Ticked(pu.mint, pu.priceUsd, pu.liquidityUsd, pu.ts));
    case Selling(x, now, cause) =>
      SellKeepsLogged(cfg, exec, s, x, now, cause);
  }

  /** The trade log is faithful. After every legal run there is exactly one closed trade per filled
      sell, in the same order, and each sums up the whole life of its position: its cost is that of
      all the slice fills, its entry price their volume-weighted average, its P&L the sale's
      proceeds less that cost, and the order sold exactly the quantity bought. */
  lemma TradeLogIsFaithful(cfg: Config, exec: Executor, boot: Time, steps: seq<Step>)
    requires cfg.Valid() && Execution.Faithful(exec) && LegalRun(cfg, exec, Initial(cfg, boot), steps)
    ensures Logged(cfg, Run(cfg, exec, Initial(cfg, boot), steps))
  {
    hide LifeInv, Logged;
    forall s: State, mv: Move | Records(cfg, s) && Coherent(s) && Enabled(cfg, s, mv)
      ensures Records(cfg, Apply(cfg, exec, s, mv))
    {
      MoveKeepsLogged(cfg, exec, s, mv);
      forall m { MoveKeepsLife(cfg, exec, m, s, mv); }
    }
    var inv := (s: State, _: Time) => Records(cfg, s);
    assert inv(Initial(cfg, boot), boot) by { NothingRecorded(cfg, boot); }
    RunKeeps(cfg, exec, inv, false, Initial(cfg, boot), boot, steps);
    assert inv(Run(cfg, exec, Initial(cfg, boot), steps), LastTs(boot, steps));
  }

  ghost predicate Records(cfg: Config, s: State) {
    Logged(cfg, s) && forall m :: LifeInv(cfg, m, s)
  }

  lemma NothingRecorded(cfg: Config, boot: Time)
    ensures Records(cfg, Initial(cfg, boot))
  {}
}
