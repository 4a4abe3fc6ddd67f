/** The cash ledger is exact over every run, whatever the executor answers. */
module Conservation {
  import opened Domain
  import opened Risk
  import opened Machine
  import opened Ledger
  import opened Moves
  import Persist

  /** The three views of the money agree: realized P&L, open costs, and cash that moved. */
  ghost predicate Balanced(cfg: Config, s: State) {
    && s.equity == cfg.equityUsd + SumPnl(s.closed)
    && s.deployed == SumCost(s.positions)
    && s.Free() == cfg.equityUsd - Spent(s.tape) + Received(s.tape)
    && (forall t :: t in s.closed ==> Persist.TradeAddsUp(t))
  }

  lemma TapeGrows(tape: seq<Entry>, e: Entry)
    ensures Spent(tape + [e]) == Spent(tape) + BuyCost(e)
    ensures Received(tape + [e]) == Received(tape) + SellProceeds(e)
  {
    assert (tape + [e])[..|tape|] == tape;
  }

  /** A fill adds its cost to the cost of the book. */
  lemma FillAddsItsCost(s: State, f: Fill, launchpad: Launchpad, liquidityUsd: real)
    ensures SumCost(ApplyBuyFill(s, f, launchpad, liquidityUsd).positions) ==
      SumCost(s.positions) + (f.notionalUsd + f.feeUsd)
  {
    hide Vwap, SumCost;
    var p := if f.mint in s.positions then s.positions[f.mint] else Opened(f, launchpad, liquidityUsd);
    SumCostUpdate(s.positions, f.mint, AddFill(p, f, liquidityUsd));
  }

  lemma BuyKeepsBalanced(cfg: Config, exec: Executor, s: State, l: Launch, slice: real)
    requires Balanced(cfg, s)
    ensures Balanced(cfg, SubmitSlice(cfg, exec, s, l, slice))
  {
    hide AddFill, Opened, Settle, SumCost, SumPnl, Spent, Received;
    var order := SliceOrder(cfg, s, l, slice);
    var reply := exec(order);
    var e := Traded(order, reply, Funnel);
    TapeGrows(s.tape, e);
    if reply.Filled? {
      var risk := PushOrder(Settle(s.controls.state, l.createdAt), l.createdAt);
      var sent := s.WithRisk(risk).(orderSeq := order.id, tape := s.tape + [e]);
      FillAddsItsCost(sent, reply.fill, l.launchpad, l.liquidityUsd);
    }
  }

  /** Changing anything about a position but its cost leaves the ledger balanced. */
  lemma CostUntouched(cfg: Config, s: State, s': State, m: Mint)
    requires Balanced(cfg, s) && m in s.positions && m in s'.positions
    requires s'.positions == s.positions[m := s'.positions[m]]
    requires s'.positions[m].costUsd == s.positions[m].costUsd
    requires s'.equity == s.equity && s'.deployed == s.deployed && s'.closed == s.closed
    requires Spent(s'.tape) == Spent(s.tape) && Received(s'.tape) == Received(s.tape)
    ensures Balanced(cfg, s')
  {
    SumCostUpdate(s.positions, m, s'.positions[m]);
  }

  lemma TickKeepsBalanced(cfg: Config, s: State, pu: PriceUpdate)
    requires Balanced(cfg, s) && pu.mint in s.positions
    ensures Balanced(cfg, ObserveTick(cfg, s, pu))
  {
    TapeGrows(s.tape, Ticked(pu.mint, pu.priceUsd, pu.liquidityUsd, pu.ts));
    TickTouches(cfg, s.positions[pu.mint], pu);
    CostUntouched(cfg, s, ObserveTick(cfg, s, pu), pu.mint);
  }

  lemma SaleKeepsBalanced(cfg: Config, s: State, sent: State, x: Exit, f: Fill, now: Time)
    requires Balanced(cfg, s) && x.mint in s.positions && x.cost == s.positions[x.mint].costUsd
    requires sent == s.(tape := sent.tape, orderSeq := sent.orderSeq, controls := sent.controls)
    requires Spent(sent.tape) == Spent(s.tape) && Received(sent.tape) == Received(s.tape) + Proceeds(f)
    ensures Balanced(cfg, SettleSale(cfg, sent, x, f, now))
  {
    hide PnlPct, LossLimit, Vwap;
    SumCostSplit(s.positions, x.mint);
    var trade := TradeOf(x, f, now);
    var closed := s.closed + [trade];
    assert closed[..|closed| - 1] == s.closed;
    assert Persist.TradeAddsUp(trade);
  }

  lemma SellKeepsBalanced(cfg: Config, exec: Executor, s: State, x: Exit, now: Time,
      cause: Cause)
    requires Balanced(cfg, s) && x.mint in s.positions && x.cost == s.positions[x.mint].costUsd
    ensures Balanced(cfg, ClosePosition(cfg, exec, s, x, now, cause))
  {
    hide SettleSale, PnlPct, LossLimit;
    var order := ExitOrder(s.orderSeq + 1, x, now);
    var reply := exec(order);
    var e := Traded(order, reply, cause);
    TapeGrows(s.tape, e);
    match reply
    case Failed(_) => CostUntouched(cfg, s, ClosePosition(cfg, exec, s, x, now, cause), x.mint);
    case Filled(f) =>
      var sent := s.WithRisk(PushOrder(s.controls.state, now)).(orderSeq := order.id, tape := s.tape + [e]);
      SaleKeepsBalanced(cfg, s, sent, x, f, now);
  }

  lemma BalancedIsInductive(cfg: Config, exec: Executor)
    ensures Inductive(cfg, exec, (s, _) => Balanced(cfg, s), false)
  {
    forall s: State, mv: Move | Balanced(cfg, s) && Coherent(s) && Enabled(cfg, s, mv)
      ensures Balanced(cfg, Apply(cfg, exec, s, mv))
    {
      match mv
      case Settling(_) =>
      case Slicing(l, slice) => BuyKeepsBalanced(cfg, exec, s, l, slice);
      case Ticking(pu) => TickKeepsBalanced(cfg, s, pu);
      case Selling(x, now, cause) => SellKeepsBalanced(cfg, exec, s, x, now, cause);
    }
  }

  /** Conservation. After every legal run, with no assumption on the executor at all: equity is
      the starting equity plus the P&L of every closed trade, deployed capital is the cost of the
      open book, and free capital is the starting equity minus every buy plus every sell. */
  lemma LedgerConservation(cfg: Config, exec: Executor, boot: Time, steps: seq<Step>)
    requires cfg.Valid() && LegalRun(cfg, exec, Initial(cfg, boot), steps)
    ensures var s := Run(cfg, exec, Initial(cfg, boot), steps);
      && s.equity == cfg.equityUsd + SumPnl(s.closed)
      && s.deployed == SumCost(s.positions)
      && s.Free() == cfg.equityUsd - Spent(s.tape) + Received(s.tape)
      && (forall t :: t in s.closed ==> t.pnlUsd == t.proceedsUsd - t.costUsd)
  {
    BalancedIsInductive(cfg, exec);
    var inv := (s: State, _: Time) => Balanced(cfg, s);
    assert inv(Initial(cfg, boot), boot);
    RunKeeps(cfg, exec, inv, false, Initial(cfg, boot), boot, steps);
    assert inv(Run(cfg, exec, Initial(cfg, boot), steps), LastTs(boot, steps));
  }
}
